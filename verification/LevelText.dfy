/**
 Level files: a hand-written printer, and a loader that goes over the lines with a handful of flags, looking for
 key names.  Printing and parsing of floating-point numbers come from outside.
 */
module LevelText {
  import opened TextLines
  import opened Words

  datatype Color = Color(r: U8, g: U8, b: U8, a: U8)

  datatype Obstacle = Obstacle(x: real, z: real, width: real, depth: real, height: real, color: Color)

  datatype Area = Area(x: real, z: real, width: real, depth: real, color: Color)

  datatype EnemySpawn = EnemySpawn(x: real, z: real, color: Color)

  datatype Level = Level(
    name: string, floorColor: Color, obstacles: seq<Obstacle>, areas: seq<Area>, enemies: seq<EnemySpawn>)

  datatype Number = NotANumber | Number(value: real)

  /** How a stream prints a number, and what `strtof` reads from the start of a text. */
  datatype Numerals = Numerals(shown: real -> string, parsed: string -> Number)

  const NEW_OBSTACLE := Obstacle(0.0, 0.0, 4.0, 4.0, 2.0, Color(120, 150, 200, 255))
  const NEW_AREA := Area(0.0, 0.0, 4.0, 4.0, Color(120, 120, 120, 120))
  const NEW_ENEMY := EnemySpawn(0.0, 0.0, Color(255, 0, 0, 255))
  const NEW_LEVEL := Level("Untitled", Color(20, 20, 25, 0), [], [], [])

  const PALETTE: seq<Color> := [
    Color(100, 149, 237, 255), Color(255, 127, 80, 255), Color(147, 112, 219, 255), Color(218, 165, 32, 255),
    Color(72, 209, 204, 255), Color(220, 20, 60, 255), Color(50, 205, 50, 255), Color(255, 99, 132, 255),
    Color(255, 215, 0, 255), Color(138, 43, 226, 255)]

  // ---------------------------------------------------------------------------------------------
  // Searching a line

  predicate Blank(c: char) {
    c == ' ' || c == '\t' || c == '\r' || c == '\n'
  }

  /** The line without its leading blanks. */
  function Trimmed(s: string): string {
    if s != [] && Blank(s[0]) then Trimmed(s[1..]) else s
  }

  predicate OccursAt(s: string, pattern: string, i: nat) {
    i + |pattern| <= |s| && s[i..i + |pattern|] == pattern
  }

  predicate Contains(s: string, pattern: string) {
    exists i :: 0 <= i <= |s| && OccursAt(s, pattern, i)
  }

  function Quoted(key: string): string {
    "\"" + key + "\""
  }

  predicate HasKey(line: string, key: string) {
    Contains(line, Quoted(key))
  }

  predicate HasField(line: string, key: string) {
    Contains(line, Quoted(key) + ":")
  }

  /** The first index from `i` on that holds `c`; the length when there is none. */
  function IndexFrom(s: string, c: char, i: nat): (r: nat)
    requires i <= |s|
    ensures i <= r <= |s|
    ensures r < |s| ==> s[r] == c
    ensures c !in s[i..r]
    decreases |s| - i
  {
    if i == |s| || s[i] == c then i else IndexFrom(s, c, i + 1)
  }

  // ---------------------------------------------------------------------------------------------
  // Reading values

  /** The number behind the colon of the line; what was there before when there is none. */
  function FloatAt(nm: Numerals, line: string, before: real): real {
    var colon := IndexFrom(line, ':', 0);
    if colon == |line| then before
    else
      match nm.parsed(line[colon + 1..])
      case NotANumber => before
      case Number(value) => value
  }

  /** The text between the first two quotes behind the first colon of the line. */
  function NameAt(line: string, before: string): string {
    var first := IndexFrom(line, '"', IndexFrom(line, ':', 0));
    if first == |line| then before
    else
      var second := IndexFrom(line, '"', first + 1);
      if second == |line| then before else line[first + 1..second]
  }

  predicate Digit(c: char) {
    '0' <= c <= '9'
  }

  function DigitRun(s: string): (n: nat)
    ensures n <= |s| && forall i :: 0 <= i < n ==> Digit(s[i])
  {
    if s == [] || !Digit(s[0]) then 0 else 1 + DigitRun(s[1..])
  }

  function DigitsValue(s: string): int {
    if s == [] then 0 else DigitsValue(s[..|s| - 1]) * 10 + (s[|s| - 1] as int - '0' as int)
  }

  /** The 32-bit integers of a text in which everything but digits and minus signs separates. */
  function Ints(s: string): seq<int>
    decreases |s|
  {
    if s == [] then []
    else if !Digit(s[0]) && s[0] != '-' then Ints(s[1..])
    else
      var body := if s[0] == '-' then s[1..] else s;
      var n := DigitRun(body);
      var value := if s[0] == '-' then -DigitsValue(body[..n]) else DigitsValue(body[..n]);
      if n == 0 || !(-0x8000_0000 <= value < 0x8000_0000) then [] else [value] + Ints(body[n..])
  }

  /** The lines a colour array runs over, joined, and what is left. */
  datatype Gathered = Gathered(buffer: string, rest: seq<string>)

  function Gather(buffer: string, lines: seq<string>): (g: Gathered)
    ensures |g.rest| <= |lines|
    decreases |lines|
  {
    if ']' in buffer || lines == [] then Gathered(buffer, lines)
    else
      var t := Trimmed(lines[0]);
      Gather(if t == [] then buffer else buffer + " " + t, lines[1..])
  }

  // ---------------------------------------------------------------------------------------------
  // The loader's state and its steps

  datatype Section = NoSection | Obstacles | Areas | Enemies

  datatype Loader = Loader(
    level: Level,
    section: Section,
    inObstacle: bool,
    inArea: bool,
    inEnemy: bool,
    inFloorPatches: bool,
    colorIndex: nat,
    obstacle: Obstacle,
    area: Area,
    enemy: EnemySpawn)

  const STARTED := Loader(NEW_LEVEL, NoSection, false, false, false, false, 0, NEW_OBSTACLE, NEW_AREA, NEW_ENEMY)

  datatype Target = FloorTarget | ObstacleTarget | AreaTarget | EnemyTarget

  /** A line is dealt with, or starts a colour array for the target. */
  datatype Action = Done(next: Loader) | Wants(target: Target)

  function Painted(st: Loader, target: Target, color: Color): Loader {
    match target
    case FloorTarget => st.(level := st.level.(floorColor := color))
    case ObstacleTarget => st.(obstacle := st.obstacle.(color := color))
    case AreaTarget => st.(area := st.area.(color := color))
    case EnemyTarget => st.(enemy := st.enemy.(color := color))
  }

  /** The first four numbers, each cut to a byte; with fewer the next colour of the palette. */
  function WithColor(st: Loader, target: Target, values: seq<int>): Loader {
    if |values| >= 4 then
      Painted(st, target, Color(values[0] % 0x100, values[1] % 0x100, values[2] % 0x100, values[3] % 0x100))
    else Painted(st.(colorIndex := st.colorIndex + 1), target, PALETTE[st.colorIndex % 10])
  }

  function ObstacleLine(nm: Numerals, st: Loader, line: string): Action {
    var o := st.obstacle;
    if HasField(line, "x") then Done(st.(obstacle := o.(x := FloatAt(nm, line, o.x))))
    else if HasField(line, "z") then Done(st.(obstacle := o.(z := FloatAt(nm, line, o.z))))
    else if HasField(line, "width") then Done(st.(obstacle := o.(width := FloatAt(nm, line, o.width))))
    else if HasField(line, "depth") then Done(st.(obstacle := o.(depth := FloatAt(nm, line, o.depth))))
    else if HasField(line, "height") then Done(st.(obstacle := o.(height := FloatAt(nm, line, o.height))))
    else if HasField(line, "color") then Wants(ObstacleTarget)
    else if '}' in line then
      Done(st.(level := st.level.(obstacles := st.level.obstacles + [o]), inObstacle := false))
    else Done(st)
  }

  function AreaLine(nm: Numerals, st: Loader, line: string): Action {
    var a := st.area;
    if HasField(line, "x") then Done(st.(area := a.(x := FloatAt(nm, line, a.x))))
    else if HasField(line, "z") then Done(st.(area := a.(z := FloatAt(nm, line, a.z))))
    else if HasField(line, "width") then Done(st.(area := a.(width := FloatAt(nm, line, a.width))))
    else if HasField(line, "depth") then Done(st.(area := a.(depth := FloatAt(nm, line, a.depth))))
    else if HasField(line, "color") then Wants(AreaTarget)
    else if '}' in line then Done(st.(level := st.level.(areas := st.level.areas + [a]), inArea := false))
    else Done(st)
  }

  function EnemyLine(nm: Numerals, st: Loader, line: string): Action {
    var e := st.enemy;
    if HasField(line, "x") then Done(st.(enemy := e.(x := FloatAt(nm, line, e.x))))
    else if HasField(line, "z") then Done(st.(enemy := e.(z := FloatAt(nm, line, e.z))))
    else if HasField(line, "color") then Wants(EnemyTarget)
    else if '}' in line then Done(st.(level := st.level.(enemies := st.level.enemies + [e]), inEnemy := false))
    else Done(st)
  }

  function Body(nm: Numerals, st: Loader, line: string): Action {
    if HasField(line, "name") then Done(st.(level := st.level.(name := NameAt(line, st.level.name))))
    else if HasField(line, "floorColor") then Wants(FloorTarget)
    else if st.section.Obstacles? && '{' in line && !st.inObstacle then
      Done(st.(inObstacle := true, obstacle := NEW_OBSTACLE))
    else if st.section.Areas? && '{' in line && !st.inArea then Done(st.(inArea := true, area := NEW_AREA))
    else if st.section.Enemies? && '{' in line && !st.inEnemy then Done(st.(inEnemy := true, enemy := NEW_ENEMY))
    else if st.inObstacle then ObstacleLine(nm, st, line)
    else if st.inArea then AreaLine(nm, st, line)
    else if st.inEnemy then EnemyLine(nm, st, line)
    else Done(st)
  }

  /** A closing bracket outside every object ends the section. */
  function Closing(st: Loader, line: string): Loader {
    if ']' in line && !st.inObstacle && !st.inArea && !st.inEnemy then st.(section := NoSection) else st
  }

  function Step(nm: Numerals, st: Loader, line: string): Action {
    if HasKey(line, "floorPatches") then Done(st.(inFloorPatches := true))
    else if st.inFloorPatches then Done(if ']' in line then st.(inFloorPatches := false) else st)
    else if HasKey(line, "areas") then Done(st.(section := Areas))
    else if HasKey(line, "obstacles") then Done(st.(section := Obstacles))
    else if HasKey(line, "enemies") then Done(st.(section := Enemies))
    else Body(nm, Closing(st, line), line)
  }

  function Load(nm: Numerals, st: Loader, lines: seq<string>): Level
    decreases |lines|
  {
    if lines == [] then st.level
    else
      var line := Trimmed(lines[0]);
      if line == [] then Load(nm, st, lines[1..])
      else
        match Step(nm, st, line)
        case Done(next) => Load(nm, next, lines[1..])
        case Wants(target) =>
          var g := Gather(line, lines[1..]);
          Load(nm, WithColor(Closing(st, line), target, Ints(g.buffer)), g.rest)
  }

  function Loaded(nm: Numerals, text: string): Level {
    Load(nm, STARTED, Lines(text, '\n'))
  }

  // ---------------------------------------------------------------------------------------------
  // The printer

  function Shown(n: nat): (r: string)
    ensures r != [] && forall i :: 0 <= i < |r| ==> Digit(r[i])
  {
    if n < 10 then [('0' as int + n) as char] else Shown(n / 10) + [('0' as int + n % 10) as char]
  }

  function ColorText(c: Color): string {
    "[" + Shown(c.r) + ", " + Shown(c.g) + ", " + Shown(c.b) + ", " + Shown(c.a) + "]"
  }

  /** `"key": value` and what follows it on the line. */
  function Pair(key: string, value: string): string {
    Quoted(key) + ": " + value
  }

  function NumberLine(nm: Numerals, key: string, x: real): string {
    "      " + Pair(key, nm.shown(x) + ",")
  }

  function ColorLine(c: Color): string {
    "      " + Pair("color", ColorText(c))
  }

  function CloseLine(last: bool): string {
    if last then "    }" else "    },"
  }

  function ObstacleLines(nm: Numerals, o: Obstacle, last: bool): seq<string> {
    ["    {", NumberLine(nm, "x", o.x), NumberLine(nm, "z", o.z), NumberLine(nm, "width", o.width),
     NumberLine(nm, "depth", o.depth), NumberLine(nm, "height", o.height), ColorLine(o.color), CloseLine(last)]
  }

  function AreaLines(nm: Numerals, a: Area, last: bool): seq<string> {
    ["    {", NumberLine(nm, "x", a.x), NumberLine(nm, "z", a.z), NumberLine(nm, "width", a.width),
     NumberLine(nm, "depth", a.depth), ColorLine(a.color), CloseLine(last)]
  }

  function EnemyLines(nm: Numerals, e: EnemySpawn, last: bool): seq<string> {
    ["    {", NumberLine(nm, "x", e.x), NumberLine(nm, "z", e.z), ColorLine(e.color), CloseLine(last)]
  }

  /** The lines of the first `n` obstacles. */
  function AllObstacles(nm: Numerals, os: seq<Obstacle>, n: nat): seq<string>
    requires n <= |os|
  {
    if n == 0 then [] else AllObstacles(nm, os, n - 1) + ObstacleLines(nm, os[n - 1], n == |os|)
  }

  function AllAreas(nm: Numerals, areas: seq<Area>, n: nat): seq<string>
    requires n <= |areas|
  {
    if n == 0 then [] else AllAreas(nm, areas, n - 1) + AreaLines(nm, areas[n - 1], n == |areas|)
  }

  function AllEnemies(nm: Numerals, es: seq<EnemySpawn>, n: nat): seq<string>
    requires n <= |es|
  {
    if n == 0 then [] else AllEnemies(nm, es, n - 1) + EnemyLines(nm, es[n - 1], n == |es|)
  }

  function NameLine(name: string): string {
    "  " + Pair("name", Quoted(name) + ",")
  }

  function FloorLine(c: Color): string {
    "  " + Pair("floorColor", ColorText(c) + ",")
  }

  function SectionLine(key: string): string {
    "  " + Pair(key, "[")
  }

  /** Everything behind the name. */
  function RestLines(nm: Numerals, level: Level): seq<string> {
    [FloorLine(level.floorColor), SectionLine("areas")]
    + AllAreas(nm, level.areas, |level.areas|)
    + ["  ],", SectionLine("enemies")]
    + AllEnemies(nm, level.enemies, |level.enemies|)
    + ["  ],", SectionLine("obstacles")]
    + AllObstacles(nm, level.obstacles, |level.obstacles|)
    + ["  ]", "}"]
  }

  function SavedLines(nm: Numerals, level: Level): seq<string> {
    ["{", NameLine(level.name)] + RestLines(nm, level)
  }

  function Saved(nm: Numerals, level: Level): string {
    Joined(SavedLines(nm, level), '\n')
  }

  // ---------------------------------------------------------------------------------------------
  // The code

  method WriteLine(file: string, line: string) returns (grown: string)
    ensures grown == file + line + "\n"
  {
    grown := file + line + "\n";
  }

  method WriteLines(file: string, lines: seq<string>) returns (grown: string)
    ensures grown == file + Joined(lines, '\n')
  {
    grown := file;
    for i := 0 to |lines|
      invariant grown == file + Joined(lines[..i], '\n')
    {
      JoinedSnoc(lines[..i], lines[i], '\n');
      assert lines[..i] + [lines[i]] == lines[..i + 1];
      grown := WriteLine(grown, lines[i]);
    }
    assert lines[..|lines|] == lines;
  }

  method WriteAreas(nm: Numerals, file: string, areas: seq<Area>) returns (grown: string)
    ensures grown == file + Joined(AllAreas(nm, areas, |areas|), '\n')
  {
    hide AreaLines;
    grown := file;
    for i := 0 to |areas|
      invariant grown == file + Joined(AllAreas(nm, areas, i), '\n')
    {
      var lines := AreaLines(nm, areas[i], i == |areas| - 1);
      JoinedConcat(AllAreas(nm, areas, i), lines, '\n');
      grown := WriteLines(grown, lines);
    }
  }

  method WriteEnemies(nm: Numerals, file: string, enemies: seq<EnemySpawn>) returns (grown: string)
    ensures grown == file + Joined(AllEnemies(nm, enemies, |enemies|), '\n')
  {
    hide EnemyLines;
    grown := file;
    for i := 0 to |enemies|
      invariant grown == file + Joined(AllEnemies(nm, enemies, i), '\n')
    {
      var lines := EnemyLines(nm, enemies[i], i == |enemies| - 1);
      JoinedConcat(AllEnemies(nm, enemies, i), lines, '\n');
      grown := WriteLines(grown, lines);
    }
  }

  method WriteObstacles(nm: Numerals, file: string, obstacles: seq<Obstacle>) returns (grown: string)
    ensures grown == file + Joined(AllObstacles(nm, obstacles, |obstacles|), '\n')
  {
    hide ObstacleLines;
    grown := file;
    for i := 0 to |obstacles|
      invariant grown == file + Joined(AllObstacles(nm, obstacles, i), '\n')
    {
      var lines := ObstacleLines(nm, obstacles[i], i == |obstacles| - 1);
      JoinedConcat(AllObstacles(nm, obstacles, i), lines, '\n');
      grown := WriteLines(grown, lines);
    }
  }

  method WriteSections(nm: Numerals, file: string, level: Level) returns (grown: string)
    ensures grown == file + Joined(RestLines(nm, level), '\n')
  {
    hide AllAreas, AllEnemies, AllObstacles, FloorLine, SectionLine, Joined;
    var head := [FloorLine(level.floorColor), SectionLine("areas")];
    var toEnemies := ["  ],", SectionLine("enemies")];
    ghost var done := head;
    grown := WriteLines(file, head);
    ghost var more := AllAreas(nm, level.areas, |level.areas|);
    JoinedConcat(done, more, '\n');
    done := done + more;
    grown := WriteAreas(nm, grown, level.areas);
    JoinedConcat(done, toEnemies, '\n');
    done := done + toEnemies;
    grown := WriteLines(grown, toEnemies);
    grown := WriteTail(nm, file, grown, level, done);
  }

  /** The enemies and the obstacles, behind the lines `done`. */
  method WriteTail(nm: Numerals, file: string, soFar: string, level: Level, ghost done: seq<string>)
    returns (grown: string)
    requires soFar == file + Joined(done, '\n')
    ensures grown == file + Joined(
                       done + AllEnemies(nm, level.enemies, |level.enemies|) + ["  ],", SectionLine("obstacles")]
                       + AllObstacles(nm, level.obstacles, |level.obstacles|) + ["  ]", "}"], '\n')
  {
    hide AllEnemies, AllObstacles, SectionLine, Joined;
    var toObstacles := ["  ],", SectionLine("obstacles")];
    ghost var written := done;
    ghost var more := AllEnemies(nm, level.enemies, |level.enemies|);
    JoinedConcat(written, more, '\n');
    written := written + more;
    grown := WriteEnemies(nm, soFar, level.enemies);
    JoinedConcat(written, toObstacles, '\n');
    written := written + toObstacles;
    grown := WriteLines(grown, toObstacles);
    more := AllObstacles(nm, level.obstacles, |level.obstacles|);
    JoinedConcat(written, more, '\n');
    written := written + more;
    grown := WriteObstacles(nm, grown, level.obstacles);
    JoinedConcat(written, ["  ]", "}"], '\n');
    grown := WriteLines(grown, ["  ]", "}"]);
  }

  method SaveLevelDefinition(nm: Numerals, level: Level) returns (file: string)
    ensures file == Saved(nm, level)
  {
    hide RestLines, Joined, NameLine;
    file := WriteLines("", ["{", NameLine(level.name)]);
    JoinedConcat(["{", NameLine(level.name)], RestLines(nm, level), '\n');
    file := WriteSections(nm, file, level);
  }

  /** Takes further lines until the colour array that started in `buffer` is closed. */
  method GatherColor(buffer: string, lines: seq<string>) returns (values: seq<int>, rest: seq<string>)
    ensures var g := Gather(buffer, lines); values == Ints(g.buffer) && rest == g.rest
    ensures |rest| <= |lines|
  {
    var text := buffer;
    rest := lines;
    while ']' !in text && rest != []
      invariant Gather(text, rest) == Gather(buffer, lines)
      decreases |rest|
    {
      var t := Trimmed(rest[0]);
      if t != [] {
        text := text + " " + t;
      }
      rest := rest[1..];
    }
    values := Ints(text);
  }

  /** The loader ends on any file: every pass of the loop takes at least one line. */
  method LoadLevelDefinition(nm: Numerals, file: string) returns (level: Level)
    ensures level == Loaded(nm, file)
  {
    hide Step, Ints, Gather;
    var lines := Lines(file, '\n');
    ghost var all := lines;
    var st := STARTED;
    while lines != []
      invariant Load(nm, st, lines) == Load(nm, STARTED, all)
      decreases |lines|
    {
      var line := Trimmed(lines[0]);
      lines := lines[1..];
      if line == [] {
        continue;
      }
      match Step(nm, st, line) {
        case Done(next) =>
          st := next;
        case Wants(target) =>
          var values, rest := GatherColor(line, lines);
          st := WithColor(Closing(st, line), target, values);
          lines := rest;
      }
    }
    level := st.level;
  }
}
