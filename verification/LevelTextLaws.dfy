/** When a saved level loads as itself. */
module LevelTextLaws {
  import opened LevelText
  import opened TextLines

  /** No quote, so that the quotes around it are the only ones. */
  predicate Plain(s: string) {
    '"' !in s
  }

  // ---------------------------------------------------------------------------------------------
  // Keys and values of printed lines

  /** Where a quoted key occurs there is a quote at both ends and the key between. */
  lemma KeyAt(s: string, k: string, i: nat)
    requires OccursAt(s, Quoted(k), i)
    ensures i + |k| + 2 <= |s| && s[i] == '"' && s[i + |k| + 1] == '"' && s[i + 1..i + |k| + 1] == k
  {
    var q := s[i..i + |k| + 2];
    assert q == Quoted(k);
    assert s[i] == q[0] && s[i + |k| + 1] == q[|k| + 1];
    assert forall x :: 0 <= x < |k| ==> s[i + 1..i + |k| + 1][x] == q[x + 1] == k[x];
  }

  lemma KeyAtColon(s: string, k: string, i: nat)
    requires OccursAt(s, Quoted(k) + ":", i)
    ensures OccursAt(s, Quoted(k), i) && i + |k| + 2 < |s| && s[i + |k| + 2] == ':'
  {
    var q := s[i..i + |k| + 3];
    assert q == Quoted(k) + ":";
    assert s[i..i + |k| + 2] == q[..|k| + 2] == Quoted(k);
    assert s[i + |k| + 2] == q[|k| + 2];
  }

  /** In a line with a quoted key in front and no further quotes the key occurs in front only, and no other does. */
  lemma KeyInFront(key: string, post: string, k: string, i: nat)
    requires Plain(key) && Plain(post) && Plain(k)
    requires OccursAt(Quoted(key) + post, Quoted(k), i)
    ensures i == 0 && k == key
  {
    var s, end := Quoted(key) + post, |key| + 1;
    KeyAt(s, k, i);
    assert forall x :: 0 < x < end ==> s[x] == key[x - 1];
    assert forall x :: end < x < |s| ==> s[x] == post[x - end - 1];
    assert s[1..end] == key;
  }

  lemma KeyFound(key: string, post: string)
    ensures HasKey(Quoted(key) + post, key)
    ensures post != [] && post[0] == ':' ==> HasField(Quoted(key) + post, key)
  {
    var s, n := Quoted(key) + post, |key| + 2;
    assert s[0..n] == Quoted(key);
    assert OccursAt(s, Quoted(key), 0);
    if post != [] && post[0] == ':' {
      assert s[0..n + 1] == Quoted(key) + ":";
      assert OccursAt(s, Quoted(key) + ":", 0);
    }
  }

  /** A line that starts with a quoted key and has no further quotes contains that key and no other. */
  lemma OnlyKey(key: string, post: string, k: string)
    requires Plain(key) && Plain(post) && Plain(k)
    ensures HasKey(Quoted(key) + post, k) <==> k == key
    ensures HasField(Quoted(key) + post, k) <==> k == key && post != [] && post[0] == ':'
  {
    hide OccursAt;
    var s := Quoted(key) + post;
    KeyFound(key, post);
    if HasKey(s, k) {
      var i :| 0 <= i <= |s| && OccursAt(s, Quoted(k), i);
      KeyInFront(key, post, k, i);
    }
    if HasField(s, k) {
      var i :| 0 <= i <= |s| && OccursAt(s, Quoted(k) + ":", i);
      KeyAtColon(s, k, i);
      KeyInFront(key, post, k, i);
      assert s[|key| + 2] == post[0];
    }
  }

  lemma NameLineShape(name: string)
    requires Plain(name)
    ensures var s, close := Pair("name", Quoted(name) + ","), 9 + |name|;
      |s| == close + 2 && s[0] == '"' && s[5] == '"' && s[6] == ':' && s[8] == '"' && s[close] == '"'
      && s[1..5] == "name" && s[6..8] == ": " && s[9..close] == name
      && (forall i :: 0 <= i < |s| && s[i] == '"' ==> i == 0 || i == 5 || i == 8 || i == close)
      && ':' !in s[0..6] && '"' !in s[6..8] && '"' !in s[9..close]
  {
    var s, close := Pair("name", Quoted(name) + ","), 9 + |name|;
    assert s[0..6] == "\"name\"";
    assert s == "\"name\": \"" + name + "\",";
    assert forall x :: 9 <= x < close ==> s[x] == name[x - 9];
    assert s[9..close] == name;
  }

  /** The line of a name without quotes contains that name as a key, and otherwise only what is printed around it. */
  lemma NameLineKeys(name: string, k: string)
    requires Plain(name) && Plain(k)
    requires HasKey(Pair("name", Quoted(name) + ","), k)
    ensures k == "name" || k == ": " || k == name
  {
    hide OccursAt, Pair, Quoted;
    var s, close := Pair("name", Quoted(name) + ","), 9 + |name|;
    NameLineShape(name);
    var i :| 0 <= i <= |s| && OccursAt(s, Quoted(k), i);
    KeyAt(s, k, i);
    var j := i + |k| + 1;
    assert forall x :: i < x < j ==> s[x] == s[i + 1..j][x - i - 1];
    assert (i == 0 && j == 5) || (i == 5 && j == 8) || (i == 8 && j == close);
  }

  lemma NameLineHasName(name: string)
    requires Plain(name)
    ensures var s := Pair("name", Quoted(name) + ",");
      HasKey(s, name) && HasField(s, "name")
  {
    var s, close := Pair("name", Quoted(name) + ","), 9 + |name|;
    NameLineShape(name);
    assert s[8..close + 1] == Quoted(name);
    assert OccursAt(s, Quoted(name), 8);
    KeyFound("name", ": " + (Quoted(name) + ","));
    assert s == Quoted("name") + (": " + (Quoted(name) + ","));
  }

  lemma IndexFromIs(s: string, c: char, i: nat, k: nat)
    requires i <= k < |s| && s[k] == c && c !in s[i..k]
    ensures IndexFrom(s, c, i) == k
  {
    hide IndexFrom;
  }

  lemma NameReads(name: string, before: string)
    requires Plain(name)
    ensures NameAt(Pair("name", Quoted(name) + ","), before) == name
  {
    hide IndexFrom, Pair, Quoted;
    NameLineShape(name);
    var s := Pair("name", Quoted(name) + ",");
    IndexFromIs(s, ':', 0, 6);
    IndexFromIs(s, '"', 6, 8);
    IndexFromIs(s, '"', 9, 9 + |name|);
  }

  /** Printing the number and reading it back from its line gives it again, and it prints without odd characters. */
  ghost predicate Survives(nm: Numerals, x: real) {
    nm.parsed(" " + nm.shown(x) + ",") == Number(x)
    && forall c :: c in nm.shown(x) ==> c !in "\"{}[]\n"
  }

  lemma FloatReads(nm: Numerals, key: string, x: real, before: real)
    requires Survives(nm, x) && ':' !in key
    ensures FloatAt(nm, Pair(key, nm.shown(x) + ","), before) == x
  {
    hide IndexFrom;
    var s := Pair(key, nm.shown(x) + ",");
    var colon := |key| + 2;
    assert s[..colon] == Quoted(key) && s[colon] == ':';
    IndexFromIs(s, ':', 0, colon);
    assert s[colon + 1..] == " " + nm.shown(x) + ",";
  }

  // ---------------------------------------------------------------------------------------------
  // Colours

  /** Nothing the number reader stops at. */
  predicate Separators(s: string) {
    forall c :: c in s ==> !Digit(c) && c != '-'
  }

  lemma {:induction false} IntsSkip(p: string, s: string)
    requires Separators(p)
    ensures Ints(p + s) == Ints(s)
  {
    if p == [] {
      assert p + s == s;
    } else {
      assert forall c :: c in p[1..] ==> c in p;
      IntsSkip(p[1..], s);
      assert (p + s)[0] == p[0] && p[0] in p && (p + s)[1..] == p[1..] + s;
    }
  }

  lemma {:induction false} DigitRunIs(d: string, s: string)
    requires (forall i :: 0 <= i < |d| ==> Digit(d[i])) && (s == [] || !Digit(s[0]))
    ensures DigitRun(d + s) == |d|
  {
    if d == [] {
      assert d + s == s;
    } else {
      DigitRunIs(d[1..], s);
      assert (d + s)[0] == d[0] && (d + s)[1..] == d[1..] + s;
    }
  }

  lemma {:induction false} ShownReturns(n: nat)
    ensures DigitsValue(Shown(n)) == n
  {
    if n >= 10 {
      ShownReturns(n / 10);
      var last := ('0' as int + n % 10) as char;
      assert (Shown(n / 10) + [last])[..|Shown(n / 10)|] == Shown(n / 10);
    }
  }

  lemma IntsNumber(n: nat, s: string)
    requires n < 0x8000_0000 && (s == [] || !Digit(s[0]))
    ensures Ints(Shown(n) + s) == [n] + Ints(s)
  {
    hide Shown, DigitsValue, DigitRun;
    var text := Shown(n) + s;
    assert Digit(text[0]);
    DigitRunIs(Shown(n), s);
    ShownReturns(n);
    assert text[..|Shown(n)|] == Shown(n) && text[|Shown(n)|..] == s;
  }

  lemma IntsNumberThen(n: nat, gap: string, s: string)
    requires n < 0x8000_0000 && gap != [] && Separators(gap)
    ensures Ints(Shown(n) + (gap + s)) == [n] + Ints(s)
  {
    hide Shown, Ints;
    assert gap[0] in gap;
    IntsNumber(n, gap + s);
    IntsSkip(gap, s);
  }

  /** A printed colour is read back, whatever non-numeric text stands around it. */
  lemma ColorReads(pre: string, c: Color, post: string)
    requires Separators(pre) && Separators(post)
    ensures Ints(pre + ColorText(c) + post) == [c.r, c.g, c.b, c.a]
  {
    hide Shown, Ints;
    var s3 := Shown(c.a) + ("]" + post);
    var s2 := Shown(c.b) + (", " + s3);
    var s1 := Shown(c.g) + (", " + s2);
    var s0 := Shown(c.r) + (", " + s1);
    assert pre + ColorText(c) + post == (pre + "[") + s0;
    IntsSkip(pre + "[", s0);
    IntsNumberThen(c.r, ", ", s1);
    IntsNumberThen(c.g, ", ", s2);
    IntsNumberThen(c.b, ", ", s3);
    assert "]" + post == ("]" + post) + "";
    IntsNumberThen(c.a, "]" + post, "");
    NoInts();
  }

  lemma NoInts()
    ensures Ints("") == []
  {
  }

  // ---------------------------------------------------------------------------------------------
  // Lines one by one

  /** One line whose colour array, if it starts one, is closed on it. */
  function One(nm: Numerals, st: Loader, line: string): Loader {
    match Step(nm, st, line)
    case Done(next) => next
    case Wants(target) => WithColor(Closing(st, line), target, Ints(line))
  }

  function Run(nm: Numerals, st: Loader, lines: seq<string>): Loader {
    if lines == [] then st
    else One(nm, Run(nm, st, lines[..|lines| - 1]), Trimmed(lines[|lines| - 1]))
  }

  predicate Contained(line: string) {
    var t := Trimmed(line);
    t != [] && (']' in t || (!HasField(t, "color") && !HasField(t, "floorColor")))
  }

  lemma {:induction false} RunConcat(nm: Numerals, st: Loader, a: seq<string>, b: seq<string>)
    ensures Run(nm, st, a + b) == Run(nm, Run(nm, st, a), b)
  {
    hide One, Trimmed;
    if b == [] {
      assert a + b == a;
    } else {
      RunConcat(nm, st, a, b[..|b| - 1]);
      assert (a + b)[..|a + b| - 1] == a + b[..|b| - 1];
    }
  }

  lemma WantsField(nm: Numerals, st: Loader, line: string)
    requires Step(nm, st, line).Wants?
    ensures HasField(line, "color") || HasField(line, "floorColor")
  {
    hide HasField, HasKey, FloatAt, NameAt;
  }

  lemma LoadOne(nm: Numerals, st: Loader, line: string, rest: seq<string>)
    requires Contained(line)
    ensures Load(nm, st, [line] + rest) == Load(nm, One(nm, st, Trimmed(line)), rest)
  {
    hide Step, Trimmed, HasField, Ints, WithColor, Closing;
    var t := Trimmed(line);
    assert ([line] + rest)[0] == line && ([line] + rest)[1..] == rest;
    if Step(nm, st, t).Wants? {
      WantsField(nm, st, t);
    }
  }

  lemma {:induction false} LoadRun(nm: Numerals, st: Loader, lines: seq<string>, rest: seq<string>)
    requires forall line :: line in lines ==> Contained(line)
    ensures Load(nm, st, lines + rest) == Load(nm, Run(nm, st, lines), rest)
  {
    hide Load, One, Contained, Trimmed;
    if lines == [] {
      assert lines + rest == rest;
    } else {
      var init, last := lines[..|lines| - 1], lines[|lines| - 1];
      assert last in lines && forall line :: line in init ==> line in lines;
      LoadRun(nm, st, init, [last] + rest);
      assert init + ([last] + rest) == lines + rest;
      LoadOne(nm, Run(nm, st, init), last, rest);
    }
  }

  lemma NoQuoteNoKey(line: string, k: string)
    requires Plain(line)
    ensures !HasKey(line, k) && !HasField(line, k)
  {
    if HasField(line, k) {
      var i :| 0 <= i <= |line| && OccursAt(line, Quoted(k) + ":", i);
      KeyAtColon(line, k, i);
      KeyAt(line, k, i);
    } else if HasKey(line, k) {
      var i :| 0 <= i <= |line| && OccursAt(line, Quoted(k), i);
      KeyAt(line, k, i);
    }
  }

  /** The loader is between objects, in the section. */
  ghost predicate Between(st: Loader, section: Section) {
    st.section == section && !st.inObstacle && !st.inArea && !st.inEnemy && !st.inFloorPatches
  }

  /** The loader is in an object of the section. */
  ghost predicate Within(st: Loader, section: Section) {
    st.section == section && !section.NoSection? && !st.inFloorPatches
    && st.inObstacle == section.Obstacles? && st.inArea == section.Areas? && st.inEnemy == section.Enemies?
  }

  /** What the loader finds on a line without quotes: nothing it knows by name. */
  lemma NamelessStep(nm: Numerals, st: Loader, line: string)
    requires Plain(line) && !st.inFloorPatches
    ensures !HasField(line, "color") && !HasField(line, "floorColor")
    ensures Step(nm, st, line) ==
      var s := Closing(st, line);
      if s.section.Obstacles? && '{' in line && !s.inObstacle then Done(s.(inObstacle := true,
          obstacle := NEW_OBSTACLE))
      else if s.section.Areas? && '{' in line && !s.inArea then Done(s.(inArea := true, area := NEW_AREA))
      else if s.section.Enemies? && '{' in line && !s.inEnemy then Done(s.(inEnemy := true, enemy := NEW_ENEMY))
      else if s.inObstacle then
        if '}' in line then Done(s.(level := s.level.(obstacles := s.level.obstacles + [s.obstacle]),
            inObstacle := false))
        else Done(s)
      else if s.inArea then
        if '}' in line then Done(s.(level := s.level.(areas := s.level.areas + [s.area]), inArea := false)) else Done(s)
      else if s.inEnemy then
        if '}' in line then Done(s.(level := s.level.(enemies := s.level.enemies + [s.enemy]),
            inEnemy := false)) else Done(s)
      else Done(s)
  {
    hide HasKey, HasField;
    NoQuoteNoKey(line, "floorPatches");
    NoQuoteNoKey(line, "areas");
    NoQuoteNoKey(line, "obstacles");
    NoQuoteNoKey(line, "enemies");
    NoQuoteNoKey(line, "name");
    NoQuoteNoKey(line, "floorColor");
    NoQuoteNoKey(line, "x");
    NoQuoteNoKey(line, "z");
    NoQuoteNoKey(line, "width");
    NoQuoteNoKey(line, "depth");
    NoQuoteNoKey(line, "height");
    NoQuoteNoKey(line, "color");
  }

  predicate ObjectKey(key: string) {
    key == "x" || key == "z" || key == "width" || key == "depth" || key == "height" || key == "color"
  }

  /** A line with a key of an object goes to the object the loader is in. */
  lemma ObjectStep(nm: Numerals, st: Loader, section: Section, key: string, value: string)
    requires Within(st, section) && ObjectKey(key) && Plain(value)
    ensures Step(nm, st, Pair(key, value))
         == if section.Obstacles? then ObstacleLine(nm, st, Pair(key, value))
            else if section.Areas? then AreaLine(nm, st, Pair(key, value))
            else EnemyLine(nm, st, Pair(key, value))
  {
    hide HasKey, HasField, ObstacleLine, AreaLine, EnemyLine;
    var post := ": " + value;
    assert Plain(post) && Pair(key, value) == Quoted(key) + post;
    OnlyKey(key, post, "floorPatches");
    OnlyKey(key, post, "areas");
    OnlyKey(key, post, "obstacles");
    OnlyKey(key, post, "enemies");
    OnlyKey(key, post, "name");
    OnlyKey(key, post, "floorColor");
  }

  /** The fields an object looks for on a line with the key. */
  lemma ObjectFields(key: string, value: string, k: string)
    requires ObjectKey(key) && ObjectKey(k) && Plain(value)
    ensures HasField(Pair(key, value), k) <==> k == key
  {
    hide HasField;
    var post := ": " + value;
    assert Plain(post) && Pair(key, value) == Quoted(key) + post;
    OnlyKey(key, post, k);
  }

  lemma AllObjectFields(key: string, value: string)
    requires ObjectKey(key) && Plain(value)
    ensures HasField(Pair(key, value), "x") <==> "x" == key
    ensures HasField(Pair(key, value), "z") <==> "z" == key
    ensures HasField(Pair(key, value), "width") <==> "width" == key
    ensures HasField(Pair(key, value), "depth") <==> "depth" == key
    ensures HasField(Pair(key, value), "height") <==> "height" == key
    ensures HasField(Pair(key, value), "color") <==> "color" == key
  {
    hide HasField, Pair;
    ObjectFields(key, value, "x");
    ObjectFields(key, value, "z");
    ObjectFields(key, value, "width");
    ObjectFields(key, value, "depth");
    ObjectFields(key, value, "height");
    ObjectFields(key, value, "color");
  }

  // ---------------------------------------------------------------------------------------------
  // Objects

  function WithObstacleField(o: Obstacle, key: string, v: real): Obstacle {
    if key == "x" then o.(x := v)
    else if key == "z" then o.(z := v)
    else if key == "width" then o.(width := v)
    else if key == "depth" then o.(depth := v)
    else o.(height := v)
  }

  function WithAreaField(a: Area, key: string, v: real): Area {
    if key == "x" then a.(x := v)
    else if key == "z" then a.(z := v)
    else if key == "width" then a.(width := v)
    else a.(depth := v)
  }

  function WithEnemyField(e: EnemySpawn, key: string, v: real): EnemySpawn {
    if key == "x" then e.(x := v) else e.(z := v)
  }

  /** The printed line of a number, without its indentation. */
  function NumberPair(nm: Numerals, key: string, v: real): string {
    Pair(key, nm.shown(v) + ",")
  }

  lemma NumberPlain(nm: Numerals, v: real)
    requires Survives(nm, v)
    ensures Plain(nm.shown(v) + ",")
  {
  }

  lemma NoColonInKey(key: string)
    requires ObjectKey(key)
    ensures ':' !in key
  {
  }

  lemma ObstacleNumber(nm: Numerals, st: Loader, key: string, v: real)
    requires Within(st, Obstacles) && ObjectKey(key) && key != "color" && Survives(nm, v)
    ensures One(nm, st, NumberPair(nm, key, v)) == st.(obstacle := WithObstacleField(st.obstacle, key, v))
  {
    hide HasField, FloatAt, Pair, Step, Survives, ObjectKey;
    NumberPlain(nm, v);
    NoColonInKey(key);
    var value := nm.shown(v) + ",";
    ObjectStep(nm, st, Obstacles, key, value);
    AllObjectFields(key, value);
    var o := st.obstacle;
    var before :=
      if key == "x" then o.x else if key == "z" then o.z else if key == "width" then o.width
      else if key == "depth" then o.depth else o.height;
    FloatReads(nm, key, v, before);
    KeyIs(key);
  }

  lemma KeyIs(key: string)
    requires ObjectKey(key)
    ensures key == "x" || key == "z" || key == "width" || key == "depth" || key == "height" || key == "color"
  {
  }

  lemma AreaNumber(nm: Numerals, st: Loader, key: string, v: real)
    requires Within(st, Areas) && ObjectKey(key) && key != "color" && key != "height" && Survives(nm, v)
    ensures One(nm, st, NumberPair(nm, key, v)) == st.(area := WithAreaField(st.area, key, v))
  {
    hide HasField, FloatAt, Pair, Step, Survives, ObjectKey;
    NumberPlain(nm, v);
    NoColonInKey(key);
    var value := nm.shown(v) + ",";
    ObjectStep(nm, st, Areas, key, value);
    AllObjectFields(key, value);
    var a := st.area;
    var before := if key == "x" then a.x else if key == "z" then a.z else if key == "width" then a.width else a.depth;
    FloatReads(nm, key, v, before);
    KeyIs(key);
  }

  lemma EnemyNumber(nm: Numerals, st: Loader, key: string, v: real)
    requires Within(st, Enemies) && (key == "x" || key == "z") && Survives(nm, v)
    ensures One(nm, st, NumberPair(nm, key, v)) == st.(enemy := WithEnemyField(st.enemy, key, v))
  {
    hide HasField, FloatAt, Pair, Step, Survives;
    NumberPlain(nm, v);
    NoColonInKey(key);
    var value := nm.shown(v) + ",";
    ObjectStep(nm, st, Enemies, key, value);
    AllObjectFields(key, value);
    var e := st.enemy;
    FloatReads(nm, key, v, if key == "x" then e.x else e.z);
  }

  lemma ColorPlain(c: Color)
    ensures Plain(ColorText(c)) && ']' in ColorText(c) && '\n' !in ColorText(c)
  {
    hide Shown;
    assert ColorText(c)[|ColorText(c)| - 1] == ']';
  }

  function ColorIn(st: Loader, section: Section, c: Color): Loader {
    match section
    case NoSection => st
    case Obstacles => st.(obstacle := st.obstacle.(color := c))
    case Areas => st.(area := st.area.(color := c))
    case Enemies => st.(enemy := st.enemy.(color := c))
  }

  lemma ObjectColor(nm: Numerals, st: Loader, section: Section, c: Color)
    requires Within(st, section)
    ensures One(nm, st, Pair("color", ColorText(c))) == ColorIn(st, section, c)
  {
    hide HasField, FloatAt, Step, ColorText, Ints;
    var line := Pair("color", ColorText(c));
    ColorPlain(c);
    ObjectStep(nm, st, section, "color", ColorText(c));
    AllObjectFields("color", ColorText(c));
    ColorReads(Quoted("color") + ": ", c, "");
    assert line == Quoted("color") + ": " + ColorText(c) + "";
  }

  lemma OpenObject(nm: Numerals, st: Loader, section: Section)
    requires Between(st, section) && !section.NoSection?
    ensures One(nm, st, "{")
         == match section
            case Obstacles => st.(inObstacle := true, obstacle := NEW_OBSTACLE)
            case Areas => st.(inArea := true, area := NEW_AREA)
            case Enemies => st.(inEnemy := true, enemy := NEW_ENEMY)
  {
    hide Step;
    NamelessStep(nm, st, "{");
  }

  lemma CloseObject(nm: Numerals, st: Loader, section: Section, line: string)
    requires Within(st, section) && (line == "}" || line == "},")
    ensures One(nm, st, line)
         == match section
            case Obstacles => st.(level := st.level.(obstacles := st.level.obstacles + [st.obstacle]),
                inObstacle := false)
            case Areas => st.(level := st.level.(areas := st.level.areas + [st.area]), inArea := false)
            case Enemies => st.(level := st.level.(enemies := st.level.enemies + [st.enemy]), inEnemy := false)
  {
    hide Step;
    assert line[0] == '}' && '{' !in line && ']' !in line && Plain(line);
    NamelessStep(nm, st, line);
  }

  // ---------------------------------------------------------------------------------------------
  // Indentation

  lemma {:induction false} TrimIndent(n: nat, s: string)
    requires s != [] && !Blank(s[0])
    ensures Trimmed(seq(n, i => ' ') + s) == s
  {
    var indent := seq(n, i => ' ');
    if n == 0 {
      assert indent + s == s;
    } else {
      TrimIndent(n - 1, s);
      assert (indent + s)[0] == ' ' && (indent + s)[1..] == seq(n - 1, i => ' ') + s;
    }
  }

  lemma Trim2(s: string)
    requires s != [] && !Blank(s[0])
    ensures Trimmed("  " + s) == s
  {
    TrimIndent(2, s);
    assert "  " == seq(2, i => ' ');
  }

  lemma Trim4(s: string)
    requires s != [] && !Blank(s[0])
    ensures Trimmed("    " + s) == s
  {
    TrimIndent(4, s);
    assert "    " == seq(4, i => ' ');
  }

  lemma Trim6(s: string)
    requires s != [] && !Blank(s[0])
    ensures Trimmed("      " + s) == s
  {
    TrimIndent(6, s);
    assert "      " == seq(6, i => ' ');
  }

  /** The printed lines without their indentation. */
  lemma TrimmedLines(nm: Numerals, key: string, v: real, c: Color, last: bool)
    ensures Trimmed(NumberLine(nm, key, v)) == NumberPair(nm, key, v)
    ensures Trimmed(ColorLine(c)) == Pair("color", ColorText(c))
    ensures Trimmed("    {") == "{"
    ensures Trimmed(CloseLine(last)) == if last then "}" else "},"
  {
    hide Trimmed, ColorText;
    Trim6(NumberPair(nm, key, v));
    Trim6(Pair("color", ColorText(c)));
    Trim4("{");
    assert "    {" == "    " + "{";
    Trim4("}");
    Trim4("},");
    assert "    }" == "    " + "}" && "    }," == "    " + "},";
  }

  // ---------------------------------------------------------------------------------------------
  // Printed objects

  lemma RunUpTo(nm: Numerals, st: Loader, lines: seq<string>, k: nat, line: string)
    requires k < |lines| && Trimmed(lines[k]) == line
    ensures Run(nm, st, lines[..k + 1]) == One(nm, Run(nm, st, lines[..k]), line)
  {
    hide One, Trimmed;
    assert lines[..k + 1][..k] == lines[..k];
  }

  ghost predicate ObstacleSurvives(nm: Numerals, o: Obstacle) {
    Survives(nm, o.x) && Survives(nm, o.z) && Survives(nm, o.width) && Survives(nm, o.depth) && Survives(nm, o.height)
  }

  ghost predicate AreaSurvives(nm: Numerals, a: Area) {
    Survives(nm, a.x) && Survives(nm, a.z) && Survives(nm, a.width) && Survives(nm, a.depth)
  }

  ghost predicate EnemySurvives(nm: Numerals, e: EnemySpawn) {
    Survives(nm, e.x) && Survives(nm, e.z)
  }

  /** The lines of an object read up to and with the number line at `k`. */
  lemma ObstacleNumberAt(nm: Numerals, st: Loader, lines: seq<string>, k: nat, key: string, v: real)
    requires k < |lines| && lines[k] == NumberLine(nm, key, v)
    requires Within(Run(nm, st, lines[..k]), Obstacles) && ObjectKey(key) && key != "color" && Survives(nm, v)
    ensures var s := Run(nm, st, lines[..k]);
      Run(nm, st, lines[..k + 1]) == s.(obstacle := WithObstacleField(s.obstacle, key, v))
  {
    hide One, Trimmed, Run, NumberLine, NumberPair, Survives;
    TrimmedLines(nm, key, v, NEW_OBSTACLE.color, true);
    RunUpTo(nm, st, lines, k, NumberPair(nm, key, v));
    ObstacleNumber(nm, Run(nm, st, lines[..k]), key, v);
  }

  lemma AreaNumberAt(nm: Numerals, st: Loader, lines: seq<string>, k: nat, key: string, v: real)
    requires k < |lines| && lines[k] == NumberLine(nm, key, v)
    requires Within(Run(nm, st, lines[..k]), Areas) && Survives(nm, v)
    requires ObjectKey(key) && key != "color" && key != "height"
    ensures var s := Run(nm, st, lines[..k]);
      Run(nm, st, lines[..k + 1]) == s.(area := WithAreaField(s.area, key, v))
  {
    hide One, Trimmed, Run, NumberLine, NumberPair, Survives;
    TrimmedLines(nm, key, v, NEW_OBSTACLE.color, true);
    RunUpTo(nm, st, lines, k, NumberPair(nm, key, v));
    AreaNumber(nm, Run(nm, st, lines[..k]), key, v);
  }

  lemma EnemyNumberAt(nm: Numerals, st: Loader, lines: seq<string>, k: nat, key: string, v: real)
    requires k < |lines| && lines[k] == NumberLine(nm, key, v)
    requires Within(Run(nm, st, lines[..k]), Enemies) && (key == "x" || key == "z") && Survives(nm, v)
    ensures var s := Run(nm, st, lines[..k]);
      Run(nm, st, lines[..k + 1]) == s.(enemy := WithEnemyField(s.enemy, key, v))
  {
    hide One, Trimmed, Run, NumberLine, NumberPair, Survives;
    TrimmedLines(nm, key, v, NEW_OBSTACLE.color, true);
    RunUpTo(nm, st, lines, k, NumberPair(nm, key, v));
    EnemyNumber(nm, Run(nm, st, lines[..k]), key, v);
  }

  /** The opening line, and the colour and closing lines at the end. */
  lemma ObjectOpens(nm: Numerals, st: Loader, lines: seq<string>, section: Section)
    requires lines != [] && lines[0] == "    {" && Between(st, section) && !section.NoSection?
    ensures Run(nm, st, lines[..1])
         == match section
            case Obstacles => st.(inObstacle := true, obstacle := NEW_OBSTACLE)
            case Areas => st.(inArea := true, area := NEW_AREA)
            case Enemies => st.(inEnemy := true, enemy := NEW_ENEMY)
  {
    hide One, Trimmed;
    TrimmedLines(Numerals(x => "", s => NotANumber), "x", 0.0, NEW_OBSTACLE.color, true);
    RunUpTo(nm, st, lines, 0, "{");
    assert lines[..0] == [];
    OpenObject(nm, st, section);
  }

  lemma ObjectCloses(nm: Numerals, st: Loader, lines: seq<string>, section: Section, c: Color, last: bool)
    requires |lines| >= 2
    requires lines[|lines| - 2] == ColorLine(c) && lines[|lines| - 1] == CloseLine(last)
    requires Within(Run(nm, st, lines[..|lines| - 2]), section)
    ensures Run(nm, st, lines)
         == var s := ColorIn(Run(nm, st, lines[..|lines| - 2]), section, c);
            match section
            case Obstacles => s.(level := s.level.(obstacles := s.level.obstacles + [s.obstacle]), inObstacle := false)
            case Areas => s.(level := s.level.(areas := s.level.areas + [s.area]), inArea := false)
            case Enemies => s.(level := s.level.(enemies := s.level.enemies + [s.enemy]), inEnemy := false)
  {
    hide One, Trimmed, Run, ColorLine, CloseLine, ColorText;
    var n := |lines|;
    TrimmedLines(Numerals(x => "", s => NotANumber), "x", 0.0, c, last);
    RunUpTo(nm, st, lines, n - 2, Pair("color", ColorText(c)));
    ObjectColor(nm, Run(nm, st, lines[..n - 2]), section, c);
    RunUpTo(nm, st, lines, n - 1, if last then "}" else "},");
    CloseObject(nm, Run(nm, st, lines[..n - 1]), section, if last then "}" else "},");
    assert lines[..n] == lines;
  }

  lemma ObstacleRuns(nm: Numerals, st: Loader, o: Obstacle, last: bool)
    requires Between(st, Obstacles) && ObstacleSurvives(nm, o)
    ensures Run(nm, st, ObstacleLines(nm, o, last))
         == st.(level := st.level.(obstacles := st.level.obstacles + [o]), obstacle := o)
  {
    hide Run, NumberLine, ColorLine, CloseLine, Survives;
    var lines := ObstacleLines(nm, o, last);
    ObjectOpens(nm, st, lines, Obstacles);
    ObstacleNumberAt(nm, st, lines, 1, "x", o.x);
    ObstacleNumberAt(nm, st, lines, 2, "z", o.z);
    ObstacleNumberAt(nm, st, lines, 3, "width", o.width);
    ObstacleNumberAt(nm, st, lines, 4, "depth", o.depth);
    ObstacleNumberAt(nm, st, lines, 5, "height", o.height);
    ObjectCloses(nm, st, lines, Obstacles, o.color, last);
  }

  lemma AreaRuns(nm: Numerals, st: Loader, a: Area, last: bool)
    requires Between(st, Areas) && AreaSurvives(nm, a)
    ensures Run(nm, st, AreaLines(nm, a, last))
         == st.(level := st.level.(areas := st.level.areas + [a]), area := a)
  {
    hide Run, NumberLine, ColorLine, CloseLine, Survives;
    var lines := AreaLines(nm, a, last);
    ObjectOpens(nm, st, lines, Areas);
    AreaNumberAt(nm, st, lines, 1, "x", a.x);
    AreaNumberAt(nm, st, lines, 2, "z", a.z);
    AreaNumberAt(nm, st, lines, 3, "width", a.width);
    AreaNumberAt(nm, st, lines, 4, "depth", a.depth);
    ObjectCloses(nm, st, lines, Areas, a.color, last);
  }

  lemma EnemyRuns(nm: Numerals, st: Loader, e: EnemySpawn, last: bool)
    requires Between(st, Enemies) && EnemySurvives(nm, e)
    ensures Run(nm, st, EnemyLines(nm, e, last))
         == st.(level := st.level.(enemies := st.level.enemies + [e]), enemy := e)
  {
    hide Run, NumberLine, ColorLine, CloseLine, Survives;
    var lines := EnemyLines(nm, e, last);
    ObjectOpens(nm, st, lines, Enemies);
    EnemyNumberAt(nm, st, lines, 1, "x", e.x);
    EnemyNumberAt(nm, st, lines, 2, "z", e.z);
    ObjectCloses(nm, st, lines, Enemies, e.color, last);
  }

  // ---------------------------------------------------------------------------------------------
  // Printed lists

  ghost predicate AllSurvive(nm: Numerals, level: Level) {
    (forall o :: o in level.obstacles ==> ObstacleSurvives(nm, o))
    && (forall a :: a in level.areas ==> AreaSurvives(nm, a))
    && (forall e :: e in level.enemies ==> EnemySurvives(nm, e))
  }

  lemma {:induction false} ObstaclesRun(nm: Numerals, st: Loader, os: seq<Obstacle>, n: nat)
    requires Between(st, Obstacles) && n <= |os| && forall o :: o in os ==> ObstacleSurvives(nm, o)
    ensures var s := Run(nm, st, AllObstacles(nm, os, n));
      Between(s, Obstacles) && s.level == st.level.(obstacles := st.level.obstacles + os[..n])
  {
    hide Run, ObstacleLines, ObstacleSurvives;
    if n == 0 {
      RunNothing(nm, st);
    } else {
      ObstaclesRun(nm, st, os, n - 1);
      var s := Run(nm, st, AllObstacles(nm, os, n - 1));
      RunConcat(nm, st, AllObstacles(nm, os, n - 1), ObstacleLines(nm, os[n - 1], n == |os|));
      ObstacleRuns(nm, s, os[n - 1], n == |os|);
      assert os[..n] == os[..n - 1] + [os[n - 1]];
    }
  }

  lemma {:induction false} AreasRun(nm: Numerals, st: Loader, areas: seq<Area>, n: nat)
    requires Between(st, Areas) && n <= |areas| && forall a :: a in areas ==> AreaSurvives(nm, a)
    ensures var s := Run(nm, st, AllAreas(nm, areas, n));
      Between(s, Areas) && s.level == st.level.(areas := st.level.areas + areas[..n])
  {
    hide Run, AreaLines, AreaSurvives;
    if n == 0 {
      RunNothing(nm, st);
    } else {
      AreasRun(nm, st, areas, n - 1);
      var s := Run(nm, st, AllAreas(nm, areas, n - 1));
      RunConcat(nm, st, AllAreas(nm, areas, n - 1), AreaLines(nm, areas[n - 1], n == |areas|));
      AreaRuns(nm, s, areas[n - 1], n == |areas|);
      assert areas[..n] == areas[..n - 1] + [areas[n - 1]];
    }
  }

  lemma {:induction false} EnemiesRun(nm: Numerals, st: Loader, es: seq<EnemySpawn>, n: nat)
    requires Between(st, Enemies) && n <= |es| && forall e :: e in es ==> EnemySurvives(nm, e)
    ensures var s := Run(nm, st, AllEnemies(nm, es, n));
      Between(s, Enemies) && s.level == st.level.(enemies := st.level.enemies + es[..n])
  {
    hide Run, EnemyLines, EnemySurvives;
    if n == 0 {
      RunNothing(nm, st);
    } else {
      EnemiesRun(nm, st, es, n - 1);
      var s := Run(nm, st, AllEnemies(nm, es, n - 1));
      RunConcat(nm, st, AllEnemies(nm, es, n - 1), EnemyLines(nm, es[n - 1], n == |es|));
      EnemyRuns(nm, s, es[n - 1], n == |es|);
      assert es[..n] == es[..n - 1] + [es[n - 1]];
    }
  }

  lemma RunNothing(nm: Numerals, st: Loader)
    ensures Run(nm, st, []) == st
  {
  }

  // ---------------------------------------------------------------------------------------------
  // Every printed line but the name's

  /** One line of the file, closing what it opens, that does not name the level. */
  predicate Tame(line: string) {
    Contained(line) && '\n' !in line && !HasField(Trimmed(line), "name")
  }

  lemma PairTame(indent: string, key: string, value: string)
    requires Trimmed(indent + Pair(key, value)) == Pair(key, value)
    requires Plain(key) && Plain(value) && '\n' !in indent && '\n' !in key && '\n' !in value && key != "name"
    requires key == "color" || key == "floorColor" ==> ']' in value
    ensures Tame(indent + Pair(key, value))
  {
    hide HasField, Trimmed;
    var post := ": " + value;
    assert Plain(post) && Pair(key, value) == Quoted(key) + post;
    OnlyKey(key, post, "name");
    OnlyKey(key, post, "color");
    OnlyKey(key, post, "floorColor");
  }

  lemma NamelessTame(line: string)
    requires Plain(line) && '\n' !in line && Trimmed(line) != [] && Plain(Trimmed(line))
    ensures Tame(line)
  {
    hide HasField, Trimmed;
    NoQuoteNoKey(Trimmed(line), "name");
    NoQuoteNoKey(Trimmed(line), "color");
    NoQuoteNoKey(Trimmed(line), "floorColor");
  }

  lemma NumberTame(nm: Numerals, key: string, v: real)
    requires ObjectKey(key) && key != "color" && Survives(nm, v)
    ensures Tame(NumberLine(nm, key, v))
  {
    hide Trimmed, Tame;
    TrimmedLines(nm, key, v, NEW_OBSTACLE.color, true);
    PairTame("      ", key, nm.shown(v) + ",");
  }

  lemma ColorTame(c: Color)
    ensures Tame(ColorLine(c))
  {
    hide Trimmed, Tame, ColorText;
    ColorPlain(c);
    TrimmedLines(Numerals(x => "", s => NotANumber), "x", 0.0, c, true);
    PairTame("      ", "color", ColorText(c));
  }

  lemma BracesTame(last: bool)
    ensures Tame("    {") && Tame(CloseLine(last)) && Tame("  ],") && Tame("  ]") && Tame("}")
  {
    hide Trimmed, Tame;
    TrimmedLines(Numerals(x => "", s => NotANumber), "x", 0.0, NEW_OBSTACLE.color, last);
    NamelessTame("    {");
    NamelessTame(CloseLine(last));
    FooterTrims();
    NamelessTame("  ],");
    NamelessTame("  ]");
    NamelessTame("}");
  }

  lemma FooterTrims()
    ensures Trimmed("  ],") == "]," && Trimmed("  ]") == "]" && Trimmed("}") == "}" && Trimmed("{") == "{"
  {
    Trim2("],");
    Trim2("]");
    assert "  ]," == "  " + "]," && "  ]" == "  " + "]";
  }

  lemma HeaderTrims(c: Color, key: string)
    ensures Trimmed(FloorLine(c)) == Pair("floorColor", ColorText(c) + ",")
    ensures Trimmed(SectionLine(key)) == Pair(key, "[")
  {
    hide Trimmed, ColorText;
    Trim2(Pair("floorColor", ColorText(c) + ","));
    Trim2(Pair(key, "["));
  }

  lemma HeaderTame(c: Color, key: string)
    requires key == "areas" || key == "enemies" || key == "obstacles"
    ensures Tame(FloorLine(c)) && Tame(SectionLine(key))
  {
    hide Trimmed, Tame, ColorText;
    HeaderTrims(c, key);
    ColorPlain(c);
    PairTame("  ", "floorColor", ColorText(c) + ",");
    PairTame("  ", key, "[");
  }

  lemma ObjectLinesTame(nm: Numerals, o: Obstacle, a: Area, e: EnemySpawn, last: bool)
    ensures ObstacleSurvives(nm, o) ==> forall line :: line in ObstacleLines(nm, o, last) ==> Tame(line)
    ensures AreaSurvives(nm, a) ==> forall line :: line in AreaLines(nm, a, last) ==> Tame(line)
    ensures EnemySurvives(nm, e) ==> forall line :: line in EnemyLines(nm, e, last) ==> Tame(line)
  {
    hide Tame, NumberLine, ColorLine, CloseLine, Survives;
    BracesTame(last);
    if ObstacleSurvives(nm, o) {
      NumberTame(nm, "x", o.x);
      NumberTame(nm, "z", o.z);
      NumberTame(nm, "width", o.width);
      NumberTame(nm, "depth", o.depth);
      NumberTame(nm, "height", o.height);
      ColorTame(o.color);
    }
    if AreaSurvives(nm, a) {
      NumberTame(nm, "x", a.x);
      NumberTame(nm, "z", a.z);
      NumberTame(nm, "width", a.width);
      NumberTame(nm, "depth", a.depth);
      ColorTame(a.color);
    }
    if EnemySurvives(nm, e) {
      NumberTame(nm, "x", e.x);
      NumberTame(nm, "z", e.z);
      ColorTame(e.color);
    }
  }

  lemma {:induction false} ObstaclesTame(nm: Numerals, os: seq<Obstacle>, n: nat)
    requires n <= |os| && forall o :: o in os ==> ObstacleSurvives(nm, o)
    ensures forall line :: line in AllObstacles(nm, os, n) ==> Tame(line)
  {
    hide Tame, ObstacleLines, ObstacleSurvives;
    if n > 0 {
      ObstaclesTame(nm, os, n - 1);
      assert os[n - 1] in os;
      ObjectLinesTame(nm, os[n - 1], NEW_AREA, NEW_ENEMY, n == |os|);
    }
  }

  lemma {:induction false} AreasTame(nm: Numerals, areas: seq<Area>, n: nat)
    requires n <= |areas| && forall a :: a in areas ==> AreaSurvives(nm, a)
    ensures forall line :: line in AllAreas(nm, areas, n) ==> Tame(line)
  {
    hide Tame, AreaLines, AreaSurvives;
    if n > 0 {
      AreasTame(nm, areas, n - 1);
      assert areas[n - 1] in areas;
      ObjectLinesTame(nm, NEW_OBSTACLE, areas[n - 1], NEW_ENEMY, n == |areas|);
    }
  }

  lemma {:induction false} EnemiesTame(nm: Numerals, es: seq<EnemySpawn>, n: nat)
    requires n <= |es| && forall e :: e in es ==> EnemySurvives(nm, e)
    ensures forall line :: line in AllEnemies(nm, es, n) ==> Tame(line)
  {
    hide Tame, EnemyLines, EnemySurvives;
    if n > 0 {
      EnemiesTame(nm, es, n - 1);
      assert es[n - 1] in es;
      ObjectLinesTame(nm, NEW_OBSTACLE, NEW_AREA, es[n - 1], n == |es|);
    }
  }

  lemma RestTame(nm: Numerals, level: Level)
    requires AllSurvive(nm, level)
    ensures forall line :: line in RestLines(nm, level) ==> Tame(line)
  {
    hide Tame, FloorLine, SectionLine, AllAreas, AllEnemies, AllObstacles, CloseLine;
    HeaderTame(level.floorColor, "areas");
    HeaderTame(level.floorColor, "enemies");
    HeaderTame(level.floorColor, "obstacles");
    BracesTame(true);
    AreasTame(nm, level.areas, |level.areas|);
    EnemiesTame(nm, level.enemies, |level.enemies|);
    ObstaclesTame(nm, level.obstacles, |level.obstacles|);
  }

  // ---------------------------------------------------------------------------------------------
  // The whole file

  lemma FloorRuns(nm: Numerals, st: Loader, c: Color)
    requires Between(st, NoSection)
    ensures One(nm, st, Pair("floorColor", ColorText(c) + ",")) == st.(level := st.level.(floorColor := c))
  {
    hide HasField, HasKey, ColorText, Ints;
    var post := ": " + (ColorText(c) + ",");
    var line := Quoted("floorColor") + post;
    ColorPlain(c);
    assert Plain(post) && Pair("floorColor", ColorText(c) + ",") == line;
    OnlyKey("floorColor", post, "floorPatches");
    OnlyKey("floorColor", post, "areas");
    OnlyKey("floorColor", post, "obstacles");
    OnlyKey("floorColor", post, "enemies");
    OnlyKey("floorColor", post, "name");
    OnlyKey("floorColor", post, "floorColor");
    ColorReads(Quoted("floorColor") + ": ", c, ",");
    assert line == Quoted("floorColor") + ": " + ColorText(c) + ",";
  }

  lemma SectionRuns(nm: Numerals, st: Loader, key: string)
    requires Between(st, NoSection) && (key == "areas" || key == "enemies" || key == "obstacles")
    ensures One(nm, st, Pair(key, "["))
         == st.(section := if key == "areas" then Areas else if key == "enemies" then Enemies else Obstacles)
  {
    hide HasField, HasKey, Body;
    var post := ": [";
    assert Pair(key, "[") == Quoted(key) + post;
    OnlyKey(key, post, "floorPatches");
    OnlyKey(key, post, "areas");
    OnlyKey(key, post, "obstacles");
    OnlyKey(key, post, "enemies");
  }

  /** A bracket between objects ends the section; a brace outside of every section does nothing. */
  lemma FooterRuns(nm: Numerals, st: Loader, section: Section, line: string)
    requires Between(st, section)
    requires line == "]," || line == "]" || (section.NoSection? && (line == "}" || line == "{"))
    ensures One(nm, st, line) == st.(section := NoSection)
  {
    hide Step;
    assert line == "]," || line == "]" ==> line[0] == ']';
    NamelessStep(nm, st, line);
  }

  lemma RunLine(nm: Numerals, st: Loader, lines: seq<string>, line: string, t: string)
    requires Trimmed(line) == t
    ensures Run(nm, st, lines + [line]) == One(nm, Run(nm, st, lines), t)
  {
    hide One, Trimmed;
    assert (lines + [line])[..|lines|] == lines;
  }

  /** A section with its heading and its closing line. */
  lemma HeadingRuns(nm: Numerals, st: Loader, key: string, section: Section)
    requires Between(st, NoSection)
    requires (key == "areas" && section == Areas) || (key == "enemies" && section == Enemies)
             || (key == "obstacles" && section == Obstacles)
    ensures Run(nm, st, [SectionLine(key)]) == st.(section := section) && Between(st.(section := section), section)
  {
    hide One, Trimmed, SectionLine;
    HeaderTrims(NEW_OBSTACLE.color, key);
    RunNothing(nm, st);
    RunLine(nm, st, [], SectionLine(key), Pair(key, "["));
    assert [] + [SectionLine(key)] == [SectionLine(key)];
    SectionRuns(nm, st, key);
  }

  lemma FootRuns(nm: Numerals, st: Loader, section: Section, line: string)
    requires Between(st, section) && (line == "  ]," || line == "  ]")
    ensures Run(nm, st, [line]) == st.(section := NoSection)
  {
    hide One, Trimmed;
    FooterTrims();
    RunNothing(nm, st);
    var t := if line == "  ]," then "]," else "]";
    RunLine(nm, st, [], line, t);
    assert [] + [line] == [line];
    FooterRuns(nm, st, section, t);
  }

  /** A list between its heading and its closing line. */
  lemma SectionListRuns(
    nm: Numerals, st: Loader, key: string, section: Section, list: seq<string>, foot: string, after: Loader
  )
    requires Between(st, NoSection) && (foot == "  ]," || foot == "  ]")
    requires (key == "areas" && section == Areas) || (key == "enemies" && section == Enemies)
             || (key == "obstacles" && section == Obstacles)
    requires Run(nm, st.(section := section), list) == after && Between(after, section)
    ensures Run(nm, st, [SectionLine(key)] + list + [foot]) == after.(section := NoSection)
  {
    hide Run, One, SectionLine;
    HeadingRuns(nm, st, key, section);
    RunConcat(nm, st, [SectionLine(key)], list);
    RunConcat(nm, st, [SectionLine(key)] + list, [foot]);
    FootRuns(nm, after, section, foot);
  }

  lemma RestRuns(nm: Numerals, st: Loader, level: Level)
    requires Between(st, NoSection) && AllSurvive(nm, level)
    requires st.level.areas == [] && st.level.enemies == [] && st.level.obstacles == []
    ensures Run(nm, st, RestLines(nm, level)).level == level.(name := st.level.name)
  {
    hide Run, One, Trimmed, FloorLine, SectionLine, AllAreas, AllEnemies, AllObstacles, ColorText;
    hide ObstacleSurvives, AreaSurvives, EnemySurvives;
    var areas := AllAreas(nm, level.areas, |level.areas|);
    var enemies := AllEnemies(nm, level.enemies, |level.enemies|);
    var obstacles := AllObstacles(nm, level.obstacles, |level.obstacles|);
    var a := [FloorLine(level.floorColor)];
    var b := [SectionLine("areas")] + areas + ["  ],"];
    var c := [SectionLine("enemies")] + enemies + ["  ],"];
    var d := [SectionLine("obstacles")] + obstacles + ["  ]"];
    assert RestLines(nm, level) == a + b + c + d + ["}"];
    RunConcat(nm, st, a + b + c + d, ["}"]);
    RunConcat(nm, st, a + b + c, d);
    RunConcat(nm, st, a + b, c);
    RunConcat(nm, st, a, b);
    FloorLineRuns(nm, st, level.floorColor);
    var s1 := Run(nm, st, a);
    AreasRun(nm, s1.(section := Areas), level.areas, |level.areas|);
    SectionListRuns(nm, s1, "areas", Areas, areas, "  ],", Run(nm, s1.(section := Areas), areas));
    var s2 := Run(nm, s1, b);
    EnemiesRun(nm, s2.(section := Enemies), level.enemies, |level.enemies|);
    SectionListRuns(nm, s2, "enemies", Enemies, enemies, "  ],", Run(nm, s2.(section := Enemies), enemies));
    var s3 := Run(nm, s2, c);
    ObstaclesRun(nm, s3.(section := Obstacles), level.obstacles, |level.obstacles|);
    SectionListRuns(nm, s3, "obstacles", Obstacles, obstacles, "  ]", Run(nm, s3.(section := Obstacles), obstacles));
    var s4 := Run(nm, s3, d);
    LastBrace(nm, s4);
    assert level.areas[..|level.areas|] == level.areas && level.enemies[..|level.enemies|] == level.enemies
           && level.obstacles[..|level.obstacles|] == level.obstacles;
  }

  lemma FloorLineRuns(nm: Numerals, st: Loader, c: Color)
    requires Between(st, NoSection)
    ensures Run(nm, st, [FloorLine(c)]) == st.(level := st.level.(floorColor := c))
  {
    hide One, Trimmed, FloorLine, ColorText;
    HeaderTrims(c, "areas");
    RunNothing(nm, st);
    RunLine(nm, st, [], FloorLine(c), Pair("floorColor", ColorText(c) + ","));
    assert [] + [FloorLine(c)] == [FloorLine(c)];
    FloorRuns(nm, st, c);
  }

  lemma LastBrace(nm: Numerals, st: Loader)
    requires Between(st, NoSection)
    ensures Run(nm, st, ["}"]) == st
  {
    hide One, Trimmed;
    FooterTrims();
    RunNothing(nm, st);
    RunLine(nm, st, [], "}", "}");
    assert [] + ["}"] == ["}"];
    FooterRuns(nm, st, NoSection, "}");
  }

  // ---------------------------------------------------------------------------------------------
  // Names that survive

  predicate SectionWord(s: string) {
    s == "floorPatches" || s == "areas" || s == "obstacles" || s == "enemies"
  }

  /** A name without quotes and line ends that is not one of the loader's section words. */
  predicate NameOk(name: string) {
    Plain(name) && '\n' !in name && !SectionWord(name)
  }

  lemma NameTrims(name: string)
    ensures Trimmed(NameLine(name)) == Pair("name", Quoted(name) + ",")
  {
    hide Trimmed;
    Trim2(Pair("name", Quoted(name) + ","));
  }

  /** The keys a loader looks for before the name's. */
  lemma NameLineWords(name: string, k: string)
    requires Plain(name) && SectionWord(k)
    ensures HasKey(Pair("name", Quoted(name) + ","), k) <==> k == name
  {
    hide HasKey, HasField;
    var line := Pair("name", Quoted(name) + ",");
    NameLineHasName(name);
    if HasKey(line, k) {
      NameLineKeys(name, k);
    }
  }

  lemma NameStep(nm: Numerals, name: string)
    requires Plain(name)
    ensures var line := Pair("name", Quoted(name) + ",");
      Step(nm, STARTED, line).Done?
      && Step(nm, STARTED, line).next.level
         == if SectionWord(name) then NEW_LEVEL else NEW_LEVEL.(name := name)
    ensures !SectionWord(name) ==>
      Step(nm, STARTED, Pair("name", Quoted(name) + ",")) == Done(STARTED.(level := NEW_LEVEL.(name := name)))
  {
    hide HasKey, HasField, NameAt, Pair;
    NameLineWords(name, "floorPatches");
    NameLineWords(name, "areas");
    NameLineWords(name, "obstacles");
    NameLineWords(name, "enemies");
    NameLineHasName(name);
    NameReads(name, "Untitled");
  }

  lemma LoadDone(nm: Numerals, st: Loader, line: string, t: string, rest: seq<string>)
    requires Trimmed(line) == t && t != [] && Step(nm, st, t).Done?
    ensures Load(nm, st, [line] + rest) == Load(nm, Step(nm, st, t).next, rest)
  {
    hide Step, Trimmed, Gather, Ints;
    assert ([line] + rest)[0] == line && ([line] + rest)[1..] == rest;
  }

  /** The loader after the first two lines of a saved level. */
  lemma HeadLoads(nm: Numerals, name: string, rest: seq<string>)
    requires Plain(name)
    ensures Step(nm, STARTED, Pair("name", Quoted(name) + ",")).Done?
    ensures Load(nm, STARTED, ["{", NameLine(name)] + rest)
         == Load(nm, Step(nm, STARTED, Pair("name", Quoted(name) + ",")).next, rest)
  {
    hide Step, Trimmed, NameLine, Load;
    FooterTrims();
    NamelessStep(nm, STARTED, "{");
    LoadDone(nm, STARTED, "{", "{", [NameLine(name)] + rest);
    NameTrims(name);
    NameStep(nm, name);
    LoadDone(nm, STARTED, NameLine(name), Pair("name", Quoted(name) + ","), rest);
    assert ["{", NameLine(name)] + rest == ["{"] + ([NameLine(name)] + rest);
  }

  lemma SavedSplits(nm: Numerals, level: Level)
    requires AllSurvive(nm, level) && '\n' !in level.name
    ensures Lines(Saved(nm, level), '\n') == ["{", NameLine(level.name)] + RestLines(nm, level)
  {
    hide RestLines, Contained;
    RestTame(nm, level);
    assert '\n' !in NameLine(level.name);
    JoinedSplits(SavedLines(nm, level), '\n');
  }

  lemma RestLoads(nm: Numerals, st: Loader, level: Level)
    requires AllSurvive(nm, level)
    ensures Load(nm, st, RestLines(nm, level)) == Run(nm, st, RestLines(nm, level)).level
  {
    hide RestLines, Run, Trimmed, HasField;
    RestTame(nm, level);
    var lines := RestLines(nm, level);
    assert forall line :: line in lines ==> Contained(line);
    LoadRun(nm, st, lines, []);
    assert lines + [] == lines;
  }

  /** A tame line leaves the name alone. */
  lemma OneKeepsName(nm: Numerals, st: Loader, line: string)
    requires !HasField(line, "name")
    ensures One(nm, st, line).level.name == st.level.name
  {
    hide HasField, HasKey, FloatAt, Ints;
  }

  lemma {:induction false} RunKeepsName(nm: Numerals, st: Loader, lines: seq<string>)
    requires forall line :: line in lines ==> Tame(line)
    ensures Run(nm, st, lines).level.name == st.level.name
  {
    hide One, Contained, Trimmed, HasField;
    if lines != [] {
      var init, last := lines[..|lines| - 1], lines[|lines| - 1];
      assert last in lines && forall line :: line in init ==> line in lines;
      RunKeepsName(nm, st, init);
      OneKeepsName(nm, Run(nm, st, init), Trimmed(last));
    }
  }

  // ---------------------------------------------------------------------------------------------
  // What the loader can never put into a name

  predicate Clean(name: string) {
    Plain(name) && '\n' !in name
  }

  lemma {:induction false} TrimmedKeeps(s: string)
    requires '\n' !in s
    ensures '\n' !in Trimmed(s)
  {
    if s != [] && Blank(s[0]) {
      assert forall c :: c in s[1..] ==> c in s;
      TrimmedKeeps(s[1..]);
    }
  }

  lemma NameAtClean(line: string, before: string)
    requires '\n' !in line && Clean(before)
    ensures Clean(NameAt(line, before))
  {
    hide IndexFrom;
  }

  lemma StepClean(nm: Numerals, st: Loader, line: string)
    requires '\n' !in line && Clean(st.level.name)
    ensures Step(nm, st, line).Done? ==> Clean(Step(nm, st, line).next.level.name)
  {
    hide HasField, HasKey, FloatAt, NameAt, Clean;
    NameAtClean(line, st.level.name);
  }

  /** On any lines at all the loaded name has no quote and no line end. */
  lemma {:induction false} LoadClean(nm: Numerals, st: Loader, lines: seq<string>)
    requires (forall line :: line in lines ==> '\n' !in line) && Clean(st.level.name)
    ensures Clean(Load(nm, st, lines).name)
    decreases |lines|
  {
    hide Step, Trimmed, Ints, Clean;
    if lines != [] {
      var line := Trimmed(lines[0]);
      TrimmedKeeps(lines[0]);
      assert forall x :: x in lines[1..] ==> x in lines;
      if line == [] {
        LoadClean(nm, st, lines[1..]);
      } else {
        StepClean(nm, st, line);
        match Step(nm, st, line)
        case Done(next) => LoadClean(nm, next, lines[1..]);
        case Wants(target) =>
          var g := Gather(line, lines[1..]);
          GatherKeeps(line, lines[1..]);
          LoadClean(nm, WithColor(Closing(st, line), target, Ints(g.buffer)), g.rest);
      }
    }
  }

  lemma {:induction false} GatherKeeps(buffer: string, lines: seq<string>)
    ensures forall line :: line in Gather(buffer, lines).rest ==> line in lines
    decreases |lines|
  {
    hide Trimmed;
    if ']' !in buffer && lines != [] {
      var t := Trimmed(lines[0]);
      GatherKeeps(if t == [] then buffer else buffer + " " + t, lines[1..]);
      assert forall line :: line in lines[1..] ==> line in lines;
    }
  }

  // ---------------------------------------------------------------------------------------------
  // The round trip

  lemma NameOkLoads(nm: Numerals, level: Level)
    requires AllSurvive(nm, level) && NameOk(level.name)
    ensures Loaded(nm, Saved(nm, level)) == level
  {
    hide AllSurvive, Load, Step, RestLines, Saved, Run;
    SavedSplits(nm, level);
    HeadLoads(nm, level.name, RestLines(nm, level));
    NameStep(nm, level.name);
    var st := STARTED.(level := NEW_LEVEL.(name := level.name));
    RestLoads(nm, st, level);
    RestRuns(nm, st, level);
  }

  lemma SectionWordLost(nm: Numerals, level: Level)
    requires AllSurvive(nm, level) && Plain(level.name) && '\n' !in level.name && SectionWord(level.name)
    ensures Loaded(nm, Saved(nm, level)).name == "Untitled"
  {
    hide AllSurvive, Load, Step, RestLines, Saved, Run, Tame;
    SavedSplits(nm, level);
    HeadLoads(nm, level.name, RestLines(nm, level));
    NameStep(nm, level.name);
    var st := Step(nm, STARTED, Pair("name", Quoted(level.name) + ",")).next;
    RestLoads(nm, st, level);
    RestTame(nm, level);
    RunKeepsName(nm, st, RestLines(nm, level));
  }

  lemma UncleanLost(nm: Numerals, text: string)
    ensures Clean(Loaded(nm, text).name)
  {
    LinesClean(text, '\n');
    LoadClean(nm, STARTED, Lines(text, '\n'));
  }

  /**
   For levels whose numbers survive printing, and lists of any length: loading the saved file gives the level back
   exactly when its name has no quote and no line end and is none of the loader's section words.
   */
  lemma SavedLoadsIff(nm: Numerals, level: Level)
    requires AllSurvive(nm, level)
    ensures Loaded(nm, Saved(nm, level)) == level <==> NameOk(level.name)
  {
    hide AllSurvive, Loaded, Saved;
    if NameOk(level.name) {
      NameOkLoads(nm, level);
    } else if Clean(level.name) {
      SectionWordLost(nm, level);
    } else {
      UncleanLost(nm, Saved(nm, level));
    }
  }

  /** Saving a level and loading the file. */
  method SaveAndLoad(nm: Numerals, level: Level) returns (loaded: Level)
    requires AllSurvive(nm, level)
    ensures loaded == level <==> NameOk(level.name)
  {
    hide AllSurvive, Loaded, Saved;
    var file := SaveLevelDefinition(nm, level);
    loaded := LoadLevelDefinition(nm, file);
    SavedLoadsIff(nm, level);
  }
}
