/** What the level loader makes of lines no printer wrote: blanks, floor patches, bare objects and short colours. */
module LevelLoadLaws {
  import opened LevelText

  // ---------------------------------------------------------------------------------------------
  // Lines that do not count

  lemma {:induction false} TrimmedAgain(s: string)
    ensures Trimmed(Trimmed(s)) == Trimmed(s)
  {
    if s != [] && Blank(s[0]) {
      TrimmedAgain(s[1..]);
    }
  }

  /** Leading blanks of a line do not matter. */
  lemma IndentIgnored(nm: Numerals, st: Loader, line: string, rest: seq<string>)
    ensures Load(nm, st, [line] + rest) == Load(nm, st, [Trimmed(line)] + rest)
  {
    hide Step, WithColor, Closing, Ints, Gather;
    TrimmedAgain(line);
    assert ([line] + rest)[1..] == rest && ([Trimmed(line)] + rest)[1..] == rest;
  }

  /** Blank lines are skipped. */
  lemma BlankIgnored(nm: Numerals, st: Loader, line: string, rest: seq<string>)
    requires forall i :: 0 <= i < |line| ==> Blank(line[i])
    ensures Load(nm, st, [line] + rest) == Load(nm, st, rest)
  {
    hide Step, WithColor, Closing, Ints, Gather;
    AllBlank(line);
    assert ([line] + rest)[1..] == rest;
  }

  lemma {:induction false} AllBlank(s: string)
    requires forall i :: 0 <= i < |s| ==> Blank(s[i])
    ensures Trimmed(s) == []
  {
    if s != [] {
      AllBlank(s[1..]);
    }
  }

  /** A line that is dealt with at once leads to the rest. */
  lemma LoadDone(nm: Numerals, st: Loader, line: string, rest: seq<string>)
    requires Trimmed(line) != [] && Step(nm, st, Trimmed(line)).Done?
    ensures Load(nm, st, [line] + rest) == Load(nm, Step(nm, st, Trimmed(line)).next, rest)
  {
    hide Step, WithColor, Closing, Ints, Gather;
    assert ([line] + rest)[1..] == rest;
  }

  // ---------------------------------------------------------------------------------------------
  // Floor patches

  /** Inside the floor patches lines without a closing bracket change nothing. */
  lemma {:induction false} InsidePatches(nm: Numerals, st: Loader, inside: seq<string>, rest: seq<string>)
    requires st.inFloorPatches && forall l :: l in inside ==> ']' !in l
    ensures Load(nm, st, inside + rest) == Load(nm, st, rest)
  {
    if inside == [] {
      assert inside + rest == rest;
    } else {
      var line, more := inside[0], inside[1..];
      assert line in inside && forall l :: l in more ==> l in inside;
      assert inside + rest == [line] + (more + rest);
      InsidePatches(nm, st, more, rest);
      TrimmedWithin(line, ']');
      var t := Trimmed(line);
      if t == [] {
        SkipsEmpty(nm, st, line, more + rest);
      } else {
        PatchLine(nm, st, t);
        LoadDone(nm, st, line, more + rest);
      }
    }
  }

  lemma PatchLine(nm: Numerals, st: Loader, line: string)
    requires st.inFloorPatches
    ensures ']' !in line ==> Step(nm, st, line) == Done(st)
    ensures ']' in line && !HasKey(line, "floorPatches") ==> Step(nm, st, line) == Done(st.(inFloorPatches := false))
  {
    hide HasKey, Body, Closing;
  }

  lemma SkipsEmpty(nm: Numerals, st: Loader, line: string, rest: seq<string>)
    requires Trimmed(line) == []
    ensures Load(nm, st, [line] + rest) == Load(nm, st, rest)
  {
    hide Step, WithColor, Closing, Ints, Gather;
    assert ([line] + rest)[1..] == rest;
  }

  lemma {:induction false} TrimmedWithin(s: string, c: char)
    ensures c in Trimmed(s) ==> c in s
    ensures !Blank(c) && c in s ==> c in Trimmed(s)
  {
    if s != [] && Blank(s[0]) {
      assert s == [s[0]] + s[1..];
      TrimmedWithin(s[1..], c);
    }
  }

  /**
   Floor patches are skipped as a whole, wherever they stand: the line that names them, lines without a closing bracket,
   and the one with it.
   */
  lemma PatchesIgnored(
    nm: Numerals, st: Loader, open: string, inside: seq<string>, close: string, rest: seq<string>
  )
    requires !st.inFloorPatches && HasKey(Trimmed(open), "floorPatches") && forall l :: l in inside ==> ']' !in l
    requires ']' in close && !HasKey(Trimmed(close), "floorPatches")
    ensures Load(nm, st, [open] + inside + [close] + rest) == Load(nm, st, rest)
  {
    hide Load, Step, HasKey;
    var within := st.(inFloorPatches := true);
    NamedNotEmpty(Trimmed(open), "floorPatches");
    OpensPatches(nm, st, Trimmed(open));
    assert [open] + inside + [close] + rest == [open] + (inside + ([close] + rest));
    LoadDone(nm, st, open, inside + ([close] + rest));
    InsidePatches(nm, within, inside, [close] + rest);
    TrimmedWithin(close, ']');
    PatchLine(nm, within, Trimmed(close));
    LoadDone(nm, within, close, rest);
  }

  lemma OpensPatches(nm: Numerals, st: Loader, line: string)
    requires HasKey(line, "floorPatches")
    ensures Step(nm, st, line) == Done(st.(inFloorPatches := true))
  {
    hide HasKey, Body, Closing;
  }

  lemma NamedNotEmpty(line: string, key: string)
    requires HasKey(line, key)
    ensures line != []
  {
  }

  // ---------------------------------------------------------------------------------------------
  // Bare objects

  /** A line that is a brace and nothing more. */
  lemma BraceHasNoKey(line: string, key: string)
    requires |line| == 1 && |key| > 0
    ensures !HasKey(line, key) && !HasField(line, key)
  {
  }

  ghost predicate Between(st: Loader, section: Section) {
    st.section == section && !st.inObstacle && !st.inArea && !st.inEnemy && !st.inFloorPatches
  }

  lemma BraceStep(nm: Numerals, st: Loader, line: string)
    requires (line == "{" || line == "}") && !st.inFloorPatches
    ensures Step(nm, st, line) == Body(nm, st, line)
  {
    hide Body, HasKey, HasField;
    BraceHasNoKey(line, "floorPatches");
    BraceHasNoKey(line, "areas");
    BraceHasNoKey(line, "obstacles");
    BraceHasNoKey(line, "enemies");
  }

  /** An object without fields is the default one of its section. */
  lemma BareObject(nm: Numerals, st: Loader, rest: seq<string>)
    ensures Between(st, Obstacles) ==>
              exists next: Loader ::
                Load(nm, st, ["{", "}"] + rest) == Load(nm, next, rest)
                && next.level == st.level.(obstacles := st.level.obstacles
                                           + [Obstacle(0.0, 0.0, 4.0, 4.0, 2.0, Color(120, 150, 200, 255))])
                && Between(next, Obstacles)
    ensures Between(st, Areas) ==>
              exists next: Loader ::
                Load(nm, st, ["{", "}"] + rest) == Load(nm, next, rest)
                && next.level == st.level.(areas := st.level.areas
                                           + [Area(0.0, 0.0, 4.0, 4.0, Color(120, 120, 120, 120))])
                && Between(next, Areas)
    ensures Between(st, Enemies) ==>
              exists next: Loader ::
                Load(nm, st, ["{", "}"] + rest) == Load(nm, next, rest)
                && next.level == st.level.(enemies := st.level.enemies
                                           + [EnemySpawn(0.0, 0.0, Color(255, 0, 0, 255))])
                && Between(next, Enemies)
  {
    hide Load, Step;
    if Between(st, Obstacles) || Between(st, Areas) || Between(st, Enemies) {
      var inside := Opened(st);
      BraceStep(nm, st, "{");
      OpensObject(nm, st);
      BraceStep(nm, inside, "}");
      ClosesObject(nm, inside);
      assert ["{", "}"] + rest == ["{"] + (["}"] + rest);
      LoadDone(nm, st, "{", ["}"] + rest);
      LoadDone(nm, inside, "}", rest);
      assert Load(nm, st, ["{", "}"] + rest) == Load(nm, Closed(inside), rest);
    }
  }

  function Opened(st: Loader): Loader {
    match st.section
    case Obstacles => st.(inObstacle := true, obstacle := NEW_OBSTACLE)
    case Areas => st.(inArea := true, area := NEW_AREA)
    case Enemies => st.(inEnemy := true, enemy := NEW_ENEMY)
    case NoSection => st
  }

  function Closed(st: Loader): Loader {
    match st.section
    case Obstacles => st.(inObstacle := false, level := st.level.(obstacles := st.level.obstacles + [st.obstacle]))
    case Areas => st.(inArea := false, level := st.level.(areas := st.level.areas + [st.area]))
    case Enemies => st.(inEnemy := false, level := st.level.(enemies := st.level.enemies + [st.enemy]))
    case NoSection => st
  }

  lemma NoFieldInBrace(line: string)
    requires |line| == 1
    ensures !HasField(line, "name") && !HasField(line, "floorColor") && !HasField(line, "color")
    ensures !HasField(line, "x") && !HasField(line, "z") && !HasField(line, "width") && !HasField(line, "depth")
    ensures !HasField(line, "height")
  {
    hide HasField;
    BraceHasNoKey(line, "name");
    BraceHasNoKey(line, "floorColor");
    BraceHasNoKey(line, "color");
    BraceHasNoKey(line, "x");
    BraceHasNoKey(line, "z");
    BraceHasNoKey(line, "width");
    BraceHasNoKey(line, "depth");
    BraceHasNoKey(line, "height");
  }

  lemma OpensObject(nm: Numerals, st: Loader)
    requires Between(st, Obstacles) || Between(st, Areas) || Between(st, Enemies)
    ensures Body(nm, st, "{") == Done(Opened(st))
  {
    hide HasField;
    NoFieldInBrace("{");
  }

  lemma ClosesObject(nm: Numerals, st: Loader)
    requires (st.section.Obstacles? && st.inObstacle && !st.inArea && !st.inEnemy)
          || (st.section.Areas? && !st.inObstacle && st.inArea && !st.inEnemy)
          || (st.section.Enemies? && !st.inObstacle && !st.inArea && st.inEnemy)
    ensures Body(nm, st, "}") == Done(Closed(st))
  {
    hide HasField;
    NoFieldInBrace("}");
  }

  // ---------------------------------------------------------------------------------------------
  // Colours

  function ColorAt(st: Loader, target: Target): Color {
    match target
    case FloorTarget => st.level.floorColor
    case ObstacleTarget => st.obstacle.color
    case AreaTarget => st.area.color
    case EnemyTarget => st.enemy.color
  }

  /**
   A colour array of four numbers or more gives its first four, each modulo 256; a shorter one gives the next colour of
   the palette, in turn and around. Only the colour that was asked for changes.
   */
  lemma ColorTaken(st: Loader, target: Target, values: seq<int>)
    ensures var after := WithColor(st, target, values);
      (|values| >= 4 ==>
         ColorAt(after, target) == Color(values[0] % 256, values[1] % 256, values[2] % 256, values[3] % 256)
         && after.colorIndex == st.colorIndex)
      && (|values| < 4 ==>
            ColorAt(after, target) == PALETTE[st.colorIndex % |PALETTE|] && after.colorIndex == st.colorIndex + 1)
      && (forall other :: other != target ==> ColorAt(after, other) == ColorAt(st, other))
      && after.level.(floorColor := st.level.floorColor) == st.level
      && after.obstacle.(color := st.obstacle.color) == st.obstacle
      && after.area.(color := st.area.color) == st.area && after.enemy.(color := st.enemy.color) == st.enemy
      && after.section == st.section
  {
  }
}
