/** `readFile`: the scene description, read with `>>` for keywords and the
    sphere radius and with `getline` + `sscanf("%f %f %f")` for every other
    field. The file is modelled after tokenisation: a sequence of tokens and
    line ends. */
module SceneFile {
  import opened Wrappers
  import opened Vectors
  import opened Scene

  /** A whitespace-separated token: one that `%f` reads in full is a number. */
  datatype Token = Word(text: string) | Num(value: real)

  datatype Item = Tok(token: Token) | Eol

  /** The unread part of the file and whether the stream is still usable
      (`!fail()`, what `while (f)` tests). */
  datatype Cursor = Cursor(rest: seq<Item>, good: bool)

  /** The light a scene starts from when the file never sets it. */
  const DefaultLight := Light(Zero, Zero)

  /** What is left to read: the loop in `readFile` stops when this is zero. */
  function Rank(c: Cursor): nat
  {
    if c.good then |c.rest| + 1 else 0
  }

  /** Every item still unread in `after` was unread in `before`. */
  predicate Remains(after: seq<Item>, before: seq<Item>)
  {
    forall x :: x in after ==> x in before
  }

  // ------------------------------------------------------ stream operations

  /** `f >> word`: skip line ends, take the next token; at the end of the
      file the extraction fails and the word stays empty. */
  function NextWord(c: Cursor): (r: (Token, Cursor))
    ensures !c.good ==> r == (Word(""), c)
    ensures c.good ==> Rank(r.1) < Rank(c)
    ensures Remains(r.1.rest, c.rest)
    ensures r.1.good ==> Tok(r.0) in c.rest
    ensures !r.1.good ==> r.0 == Word("")
    decreases |c.rest|
  {
    if !c.good then (Word(""), c)
    else if c.rest == [] then (Word(""), Cursor([], false))
    else match c.rest[0]
      case Eol => NextWord(Cursor(c.rest[1..], true))
      case Tok(t) => (t, Cursor(c.rest[1..], true))
  }

  /** `f >> x` for a float: skip line ends; a number is consumed; a word
      fails the stream and sets `x` to `0`. At the end of the file, or on a
      stream that has already failed, C++ leaves `x` unassigned; the model
      yields `0` there too. */
  function NextFloat(c: Cursor): (r: (real, Cursor))
    ensures |r.1.rest| <= |c.rest| && Remains(r.1.rest, c.rest)
    ensures r.1.good ==> c.good
    ensures !c.good ==> r.1 == c
    ensures r.1.good ==> Tok(Num(r.0)) in c.rest
    decreases |c.rest|
  {
    if !c.good then (0.0, c)
    else if c.rest == [] then (0.0, Cursor([], false))
    else match c.rest[0]
      case Eol => NextFloat(Cursor(c.rest[1..], true))
      case Tok(t) => if t.Num? then (t.value, Cursor(c.rest[1..], true)) else (0.0, Cursor(c.rest, false))
  }

  /** The tokens up to the next line end, and what follows that line end. */
  function RestOfLine(rest: seq<Item>): (r: (seq<Token>, seq<Item>))
    ensures |r.1| <= |rest| && Remains(r.1, rest)
    ensures rest != [] ==> |r.1| < |rest|
  {
    if rest == [] then ([], [])
    else match rest[0]
      case Eol => ([], rest[1..])
      case Tok(t) =>
        var more := RestOfLine(rest[1..]);
        ([t] + more.0, more.1)
  }

  /** `f.getline(buffer, 256)`: the rest of the current line; at the end of
      the file, or once the stream has failed, the line is empty and the
      stream is (or stays) failed. */
  function NextLine(c: Cursor): (r: (seq<Token>, Cursor))
    ensures |r.1.rest| <= |c.rest| && Remains(r.1.rest, c.rest)
    ensures r.1.good ==> c.good && |r.1.rest| < |c.rest|
    ensures !c.good ==> r == ([], c)
  {
    if !c.good then ([], c)
    else if c.rest == [] then ([], Cursor([], false))
    else
      var line := RestOfLine(c.rest);
      (line.0, Cursor(line.1, true))
  }

  /** `n` consecutive `getline` calls. */
  function ReadLines(c: Cursor, n: nat): (r: (seq<seq<Token>>, Cursor))
    ensures |r.0| == n
    ensures |r.1.rest| <= |c.rest| && Remains(r.1.rest, c.rest)
    ensures r.1.good ==> c.good
  {
    if n == 0 then ([], c)
    else
      var init := ReadLines(c, n - 1);
      var last := NextLine(init.1);
      (init.0 + [last.0], last.1)
  }

  /** `sscanf(buffer, "%f %f %f", ...) == 3`: a line that starts with three
      numbers. */
  function Scan3(line: seq<Token>): (r: Option<Vec3>)
    ensures r.Some? <==> |line| >= 3 && line[0].Num? && line[1].Num? && line[2].Num?
    ensures r.Some? ==> r.value == Vec3(line[0].value, line[1].value, line[2].value)
  {
    if |line| >= 3 && line[0].Num? && line[1].Num? && line[2].Num? then
      Some(Vec3(line[0].value, line[1].value, line[2].value))
    else None
  }

  /** `sscanf(buffer, "%f", &x) == 1`. */
  function Scan1(line: seq<Token>): (r: Option<real>)
    ensures r.Some? <==> |line| >= 1 && line[0].Num?
    ensures r.Some? ==> r.value == line[0].value
  {
    if |line| >= 1 && line[0].Num? then Some(line[0].value) else None
  }

  /** A field assigned only when its line scans. */
  function Field(line: seq<Token>, default: Vec3): Vec3
  {
    if Scan3(line).Some? then Scan3(line).value else default
  }

  function ScalarField(line: seq<Token>, default: real): real
  {
    if Scan1(line).Some? then Scan1(line).value else default
  }

  /** `data.push_back(vec3(x,y,z))` when the line scans. */
  function Push(data: seq<Vec3>, line: seq<Token>): seq<Vec3>
  {
    if Scan3(line).Some? then data + [Scan3(line).value] else data
  }

  /** A fresh `Shape` with its tag set; the model gives the fields the source
      leaves unassigned the value zero. */
  function Blank(kind: int): Shape
  {
    DefaultShape.(kind := kind)
  }

  // ----------------------------------------------------------- the records

  /** The colour, specular colour, highlight and `PEx` lines that close every
      shape record, each kept only when it scans. */
  function Finish(lines: seq<seq<Token>>, s: Shape): (r: Shape)
    requires |lines| == 4
    ensures r.(color := s.color, specularColor := s.specularColor,
               specularHighLight := s.specularHighLight, pex := s.pex) == s
  {
    s.(color := Field(lines[0], s.color),
       specularColor := Field(lines[1], s.specularColor),
       specularHighLight := Field(lines[2], s.specularHighLight),
       pex := ScalarField(lines[3], s.pex))
  }

  /** A `sphere` record after its keyword: the rest of the keyword line and
      the centre line; the radius read with `>>`; then the rest of the radius
      line and the four closing lines. */
  function ReadSphere(c: Cursor): (r: (Shape, Cursor))
    ensures |r.1.rest| <= |c.rest| && Remains(r.1.rest, c.rest) && (r.1.good ==> c.good)
    ensures r.0.kind == SphereKind && |r.0.data| <= 1
  {
    var head := ReadLines(c, 2);
    var radius := NextFloat(head.1);
    var tail := ReadLines(radius.1, 5);
    (Finish(tail.0[1..], Blank(SphereKind).(data := Push([], head.0[1]), addition := radius.0)), tail.1)
  }

  /** A `triangle` record: the rest of the keyword line, three vertex lines
      and the four closing lines. */
  function ReadTriangle(c: Cursor): (r: (Shape, Cursor))
    ensures |r.1.rest| <= |c.rest| && Remains(r.1.rest, c.rest) && (r.1.good ==> c.good)
    ensures r.0.kind == TriangleKind && |r.0.data| <= 3
  {
    var lines := ReadLines(c, 8);
    var data := Push(Push(Push([], lines.0[1]), lines.0[2]), lines.0[3]);
    (Finish(lines.0[4..], Blank(TriangleKind).(data := data)), lines.1)
  }

  /** A `plane` record: the rest of the keyword line, the normal line, the
      point line and the four closing lines. */
  function ReadPlane(c: Cursor): (r: (Shape, Cursor))
    ensures |r.1.rest| <= |c.rest| && Remains(r.1.rest, c.rest) && (r.1.good ==> c.good)
    ensures r.0.kind == PlaneKind && |r.0.data| <= 2
  {
    var lines := ReadLines(c, 7);
    var data := Push(Push([], lines.0[1]), lines.0[2]);
    (Finish(lines.0[3..], Blank(PlaneKind).(data := data)), lines.1)
  }

  /** A `light` record: the rest of the keyword line, then the origin line
      and the colour line, each overwriting its field of the one light when
      it scans. */
  function ReadLight(c: Cursor, light: Light): (r: (Light, Cursor))
    ensures |r.1.rest| <= |c.rest| && Remains(r.1.rest, c.rest) && (r.1.good ==> c.good)
  {
    var lines := ReadLines(c, 3);
    (Light(Field(lines.0[1], light.origin), Field(lines.0[2], light.color)), lines.1)
  }

  /** A shape `readFile` can append: one of the three tags, with at most the
      points its record lists (fewer when a point line does not scan). */
  predicate Appendable(s: Shape)
  {
    || (s.kind == SphereKind && |s.data| <= 1)
    || (s.kind == PlaneKind && |s.data| <= 2)
    || (s.kind == TriangleKind && |s.data| <= 3)
  }

  /** `longer` is `shorter` followed by shapes `readFile` can append. */
  predicate Extends(shorter: seq<Shape>, longer: seq<Shape>)
  {
    && |shorter| <= |longer| && longer[..|shorter|] == shorter
    && forall i :: |shorter| <= i < |longer| ==> Appendable(longer[i])
  }

  lemma ExtendsTransitive(a: seq<Shape>, b: seq<Shape>, c: seq<Shape>)
    requires Extends(a, b) && Extends(b, c)
    ensures Extends(a, c)
  {
    assert c[..|a|] == c[..|b|][..|a|];
  }

  /** What the scene file has produced so far. */
  datatype Loaded = Loaded(shapes: seq<Shape>, light: Light)

  /** One pass of the `while (f)` loop: read a word and act on it. `#`
      discards the rest of its line; any other unknown word is skipped on
      its own. */
  function Step(c: Cursor, acc: Loaded): (r: (Cursor, Loaded))
    requires c.good
    ensures Rank(r.0) < Rank(c) && Remains(r.0.rest, c.rest)
    ensures Extends(acc.shapes, r.1.shapes)
  {
    var word := NextWord(c);
    var c1 := word.1;
    if word.0 == Word("#") then (NextLine(c1).1, acc)
    else if word.0 == Word("light") then
      var l := ReadLight(c1, acc.light);
      (l.1, acc.(light := l.0))
    else if word.0 == Word("sphere") then
      var s := ReadSphere(c1);
      (s.1, acc.(shapes := acc.shapes + [s.0]))
    else if word.0 == Word("triangle") then
      var s := ReadTriangle(c1);
      (s.1, acc.(shapes := acc.shapes + [s.0]))
    else if word.0 == Word("plane") then
      var s := ReadPlane(c1);
      (s.1, acc.(shapes := acc.shapes + [s.0]))
    else (c1, acc)
  }

  /** The whole `while (f)` loop from cursor `c`. */
  function Load(c: Cursor, acc: Loaded): Loaded
    decreases Rank(c)
  {
    if !c.good then acc
    else
      var s := Step(c, acc);
      Load(s.0, s.1)
  }

  /** The scene `readFile` leaves in `shapeList` and `*light`. */
  function ReadScene(file: seq<Item>, shapeList: seq<Shape>, light: Light): Loaded
  {
    Load(Cursor(file, true), Loaded(shapeList, light))
  }

  // ------------------------------------------------------------ the stream

  /** The `ifstream`: the unread part of the file and the stream state that
      `while (f)` tests. */
  class Stream {
    var rest: seq<Item>
    var good: bool

    function At(): Cursor
      reads this
    {
      Cursor(rest, good)
    }

    constructor(file: seq<Item>)
      ensures At() == Cursor(file, true)
    {
      rest := file;
      good := true;
    }

    /** `f >> word` */
    method ReadWord() returns (word: Token)
      modifies this
      ensures (word, At()) == NextWord(old(At()))
    {
      if !good {
        return Word("");
      }
      while rest != [] && rest[0] == Eol
        invariant good && NextWord(At()) == NextWord(old(At()))
        decreases |rest|
      {
        rest := rest[1..];
      }
      if rest == [] {
        good := false;
        word := Word("");
      } else {
        word := rest[0].token;
        rest := rest[1..];
      }
    }

    /** `f >> x` for a float */
    method ReadFloat() returns (x: real)
      modifies this
      ensures (x, At()) == NextFloat(old(At()))
    {
      if !good {
        return 0.0;
      }
      while rest != [] && rest[0] == Eol
        invariant good && NextFloat(At()) == NextFloat(old(At()))
        decreases |rest|
      {
        rest := rest[1..];
      }
      if rest != [] && rest[0].token.Num? {
        x := rest[0].token.value;
        rest := rest[1..];
      } else {
        good := false;
        x := 0.0;
      }
    }

    /** `f.getline(buffer, 256)` */
    method GetLine() returns (line: seq<Token>)
      modifies this
      ensures (line, At()) == NextLine(old(At()))
    {
      if !good {
        return [];
      }
      if rest == [] {
        good := false;
        return [];
      }
      line := [];
      ghost var start := rest;
      while rest != [] && rest[0] != Eol
        invariant good
        invariant RestOfLine(start).0 == line + RestOfLine(rest).0
        invariant RestOfLine(start).1 == RestOfLine(rest).1
        decreases |rest|
      {
        var more := RestOfLine(rest[1..]).0;
        assert line + ([rest[0].token] + more) == (line + [rest[0].token]) + more;
        line := line + [rest[0].token];
        rest := rest[1..];
      }
      assert line == RestOfLine(start).0;
      if rest != [] {
        rest := rest[1..];
      }
    }

    /** `n` consecutive `getline` calls, the lines in the order read. */
    method GetLines(n: nat) returns (lines: seq<seq<Token>>)
      modifies this
      ensures (lines, At()) == ReadLines(old(At()), n)
    {
      lines := [];
      for k := 0 to n
        invariant (lines, At()) == ReadLines(old(At()), k)
      {
        var line := GetLine();
        lines := lines + [line];
      }
    }
  }

  // ------------------------------------------------------- record readers

  method ReadSphereRecord(f: Stream) returns (sphere: Shape)
    modifies f
    ensures (sphere, f.At()) == ReadSphere(old(f.At()))
  {
    var head := f.GetLines(2);
    sphere := Blank(SphereKind).(data := Push([], head[1]));
    var r := f.ReadFloat();
    sphere := sphere.(addition := r);
    var tail := f.GetLines(5);
    sphere := Finish(tail[1..], sphere);
  }

  method ReadTriangleRecord(f: Stream) returns (triangle: Shape)
    modifies f
    ensures (triangle, f.At()) == ReadTriangle(old(f.At()))
  {
    var lines := f.GetLines(8);
    triangle := Blank(TriangleKind);
    triangle := triangle.(data := Push(triangle.data, lines[1]));
    triangle := triangle.(data := Push(triangle.data, lines[2]));
    triangle := triangle.(data := Push(triangle.data, lines[3]));
    triangle := Finish(lines[4..], triangle);
  }

  method ReadPlaneRecord(f: Stream) returns (plane: Shape)
    modifies f
    ensures (plane, f.At()) == ReadPlane(old(f.At()))
  {
    var lines := f.GetLines(7);
    plane := Blank(PlaneKind);
    plane := plane.(data := Push(plane.data, lines[1]));
    plane := plane.(data := Push(plane.data, lines[2]));
    plane := Finish(lines[3..], plane);
  }

  method ReadLightRecord(f: Stream, light: Light) returns (l: Light)
    modifies f
    ensures (l, f.At()) == ReadLight(old(f.At()), light)
  {
    var lines := f.GetLines(3);
    l := light;
    if Scan3(lines[1]).Some? {
      l := l.(origin := Scan3(lines[1]).value);
    }
    if Scan3(lines[2]).Some? {
      l := l.(color := Scan3(lines[2]).value);
    }
  }

  /** `readFile`: the shapes are appended to `shapeList` and the light
      updated in place in the source; here both are passed in and handed
      back. */
  method ReadFile(shapeList: seq<Shape>, light: Light, file: seq<Item>) returns (shapes: seq<Shape>, newLight: Light)
    ensures Loaded(shapes, newLight) == ReadScene(file, shapeList, light)
  {
    var f := new Stream(file);
    shapes, newLight := shapeList, light;
    while f.good
      invariant Load(f.At(), Loaded(shapes, newLight)) == ReadScene(file, shapeList, light)
      decreases Rank(f.At())
    {
      var word := f.ReadWord();
      if word == Word("#") {
        var rest := f.GetLine();
      } else if word == Word("light") {
        newLight := ReadLightRecord(f, newLight);
      } else if word == Word("sphere") {
        var sphere := ReadSphereRecord(f);
        shapes := shapes + [sphere];
      } else if word == Word("triangle") {
        var triangle := ReadTriangleRecord(f);
        shapes := shapes + [triangle];
      } else if word == Word("plane") {
        var plane := ReadPlaneRecord(f);
        shapes := shapes + [plane];
      }
    }
  }

  // --------------------------------------------------------- what loading does

  /** Loading only appends to the shape list, and only shapes with a known
      tag and no more points than that tag's record lists. */
  lemma {:induction false} LoadAppends(c: Cursor, acc: Loaded)
    ensures Extends(acc.shapes, Load(c, acc).shapes)
    decreases Rank(c)
  {
    if c.good {
      var s := Step(c, acc);
      LoadAppends(s.0, s.1);
      ExtendsTransitive(acc.shapes, s.1.shapes, Load(s.0, s.1).shapes);
    } else {
      assert acc.shapes[..|acc.shapes|] == acc.shapes;
    }
  }

  /** The light changes only through a `light` record. */
  lemma {:induction false} LightOnlyFromLightRecords(c: Cursor, acc: Loaded)
    requires Tok(Word("light")) !in c.rest
    ensures Load(c, acc).light == acc.light
    decreases Rank(c)
  {
    if c.good {
      var s := Step(c, acc);
      assert s.1.light == acc.light;
      LightOnlyFromLightRecords(s.0, s.1);
    }
  }

  /** The shape list changes only through `sphere`, `triangle` and `plane`
      records. */
  lemma {:induction false} ShapesOnlyFromShapeRecords(c: Cursor, acc: Loaded)
    requires Tok(Word("sphere")) !in c.rest && Tok(Word("triangle")) !in c.rest && Tok(Word("plane")) !in c.rest
    ensures Load(c, acc).shapes == acc.shapes
    decreases Rank(c)
  {
    if c.good {
      var s := Step(c, acc);
      assert s.1.shapes == acc.shapes;
      ShapesOnlyFromShapeRecords(s.0, s.1);
    }
  }

  // ------------------------------------------------ one pass on any input

  /** A field assigned under `sscanf(...) == 3`: the scanned point when the
      line scans, the value it had before otherwise. */
  predicate FieldFrom(line: seq<Token>, v: Vec3, before: Vec3)
  {
    && (Scan3(line).Some? ==> v == Scan3(line).value)
    && (Scan3(line).None? ==> v == before)
  }

  /** A scalar assigned under `sscanf(...) == 1`. */
  predicate ScalarFrom(line: seq<Token>, x: real, before: real)
  {
    && (Scan1(line).Some? ==> x == Scan1(line).value)
    && (Scan1(line).None? ==> x == before)
  }

  /** The points of the lines that scan, in the order of the lines. */
  function Scanned(lines: seq<seq<Token>>): (points: seq<Vec3>)
    ensures |points| <= |lines|
  {
    if |lines| == 0 then []
    else
      var first := Scan3(lines[0]);
      (if first.Some? then [first.value] else []) + Scanned(lines[1..])
  }

  /** The four closing lines of a shape record gave `s` its colour,
      specular colour, highlight and exponent; a line that does not scan
      leaves its field at the zero a fresh shape starts with. */
  predicate ClosedBy(lines: seq<seq<Token>>, s: Shape)
    requires |lines| == 4
  {
    && FieldFrom(lines[0], s.color, Zero)
    && FieldFrom(lines[1], s.specularColor, Zero)
    && FieldFrom(lines[2], s.specularHighLight, Zero)
    && ScalarFrom(lines[3], s.pex, 0.0)
  }

  lemma ClosingFields(lines: seq<seq<Token>>, kind: int, data: seq<Vec3>, addition: real)
    requires |lines| == 4
    ensures ClosedBy(lines, Finish(lines, Blank(kind).(data := data, addition := addition)))
  {
  }

  /** A sphere record on any input: the centre is the centre line when it
      scans (no point otherwise), the radius is what `>>` read, and the
      closing lines set the rest. */
  lemma SphereRecordFields(c: Cursor)
    ensures var head := ReadLines(c, 2);
            var radius := NextFloat(head.1);
            var tail := ReadLines(radius.1, 5);
            var s := ReadSphere(c).0;
            && s.kind == SphereKind && s.id == 0
            && s.data == Scanned([head.0[1]])
            && s.addition == radius.0
            && ClosedBy(tail.0[1..], s)
  {
    var head := ReadLines(c, 2);
    var radius := NextFloat(head.1);
    var tail := ReadLines(radius.1, 5);
    ClosingFields(tail.0[1..], SphereKind, Push([], head.0[1]), radius.0);
    assert [head.0[1]][1..] == [];
  }

  /** A triangle record on any input: the vertices are those of the three
      vertex lines that scan, in order. */
  lemma TriangleRecordFields(c: Cursor)
    ensures var lines := ReadLines(c, 8).0;
            var s := ReadTriangle(c).0;
            && s.kind == TriangleKind && s.id == 0 && s.addition == 0.0
            && s.data == Scanned(lines[1..4])
            && ClosedBy(lines[4..], s)
  {
    var lines := ReadLines(c, 8).0;
    var data := Push(Push(Push([], lines[1]), lines[2]), lines[3]);
    ClosingFields(lines[4..], TriangleKind, data, 0.0);
    PushScans([], lines[1]);
    PushScans([lines[1]], lines[2]);
    PushScans([lines[1], lines[2]], lines[3]);
    assert [lines[1], lines[2], lines[3]] == lines[1..4];
  }

  /** `push_back` under a scanning line extends the scanned points. */
  lemma {:induction false} PushScans(lines: seq<seq<Token>>, line: seq<Token>)
    ensures Push(Scanned(lines), line) == Scanned(lines + [line])
    decreases |lines|
  {
    if |lines| == 0 {
      assert [line][1..] == [];
    } else {
      var longer := lines + [line];
      assert longer[0] == lines[0] && longer[1..] == lines[1..] + [line];
      PushScans(lines[1..], line);
      var first := if Scan3(lines[0]).Some? then [Scan3(lines[0]).value] else [];
      assert Scanned(lines) == first + Scanned(lines[1..]);
      assert Scanned(longer) == first + Scanned(lines[1..] + [line]);
    }
  }

  /** A plane record on any input: the normal and the point are those of
      the two lines that scan, in order. */
  lemma PlaneRecordFields(c: Cursor)
    ensures var lines := ReadLines(c, 7).0;
            var s := ReadPlane(c).0;
            && s.kind == PlaneKind && s.id == 0 && s.addition == 0.0
            && s.data == Scanned(lines[1..3])
            && ClosedBy(lines[3..], s)
  {
    var lines := ReadLines(c, 7).0;
    var data := Push(Push([], lines[1]), lines[2]);
    ClosingFields(lines[3..], PlaneKind, data, 0.0);
    var v := lines[1..3];
    assert v[1..] == [lines[2]] && v[1..][1..] == [];
  }

  /** A light record on any input: each of the origin and the colour
      changes only when its line scans. */
  lemma LightRecordFields(c: Cursor, light: Light)
    ensures var lines := ReadLines(c, 3).0;
            var l := ReadLight(c, light).0;
            FieldFrom(lines[1], l.origin, light.origin) && FieldFrom(lines[2], l.color, light.color)
  {
  }

  /** One pass of the loop on any input: a shape keyword appends exactly
      the one shape its record describes, with that keyword's tag, and
      leaves the light; `light` changes only the light; `#` skips its line;
      any other word is consumed and changes nothing. */
  lemma StepOnWord(c: Cursor, acc: Loaded)
    requires c.good
    ensures var word := NextWord(c);
            var r := Step(c, acc);
            && (word.0 == Word("sphere") ==>
                  var s := ReadSphere(word.1).0;
                  r.1 == acc.(shapes := acc.shapes + [s]) && s.kind == SphereKind)
            && (word.0 == Word("triangle") ==>
                  var s := ReadTriangle(word.1).0;
                  r.1 == acc.(shapes := acc.shapes + [s]) && s.kind == TriangleKind)
            && (word.0 == Word("plane") ==>
                  var s := ReadPlane(word.1).0;
                  r.1 == acc.(shapes := acc.shapes + [s]) && s.kind == PlaneKind)
            && (word.0 == Word("light") ==> r.1 == acc.(light := ReadLight(word.1, acc.light).0))
            && (word.0 == Word("#") ==> r == (NextLine(word.1).1, acc))
            && (word.0 !in {Word("sphere"), Word("triangle"), Word("plane"), Word("light"), Word("#")} ==>
                  r == (word.1, acc))
  {
  }

  // -------------------------------------------------- writing a scene back

  /** A line of tokens and its line end. */
  function LineText(line: seq<Token>): (r: seq<Item>)
    ensures |r| == |line| + 1
  {
    if |line| == 0 then [Eol] else [Tok(line[0])] + LineText(line[1..])
  }

  function LinesText(lines: seq<seq<Token>>): seq<Item>
  {
    if |lines| == 0 then [] else LinesText(lines[..|lines| - 1]) + LineText(lines[|lines| - 1])
  }

  function Nums(v: Vec3): seq<Token>
  {
    [Num(v.x), Num(v.y), Num(v.z)]
  }

  /** A shape that the file format describes exactly: every point its tag
      reads, and the fields its record does not set left at zero. */
  predicate Canonical(s: Shape)
  {
    && s.id == 0
    && ((s.kind == SphereKind && |s.data| == 1)
        || (s.kind == PlaneKind && |s.data| == 2 && s.addition == 0.0)
        || (s.kind == TriangleKind && |s.data| == 3 && s.addition == 0.0))
  }

  predicate AllCanonical(shapes: seq<Shape>)
  {
    forall i :: 0 <= i < |shapes| ==> Canonical(shapes[i])
  }

  /** The keyword that opens a shape's record. */
  function KeywordOf(kind: int): string
  {
    if kind == SphereKind then "sphere" else if kind == PlaneKind then "plane" else "triangle"
  }

  /** The four closing lines of a shape record. */
  function FinishLines(s: Shape): seq<seq<Token>>
  {
    [Nums(s.color), Nums(s.specularColor), Nums(s.specularHighLight), [Num(s.pex)]]
  }

  /** A shape record after its keyword. */
  function RecordBody(s: Shape): seq<Item>
    requires Canonical(s)
  {
    if s.kind == SphereKind then
      LinesText([[], Nums(s.data[0])]) + ([Tok(Num(s.addition))] + LinesText([[]] + FinishLines(s)))
    else if s.kind == PlaneKind then
      LinesText([[], Nums(s.data[0]), Nums(s.data[1])] + FinishLines(s))
    else
      LinesText([[], Nums(s.data[0]), Nums(s.data[1]), Nums(s.data[2])] + FinishLines(s))
  }

  /** The record the scene format uses for a shape. */
  function ShapeText(s: Shape): seq<Item>
    requires Canonical(s)
  {
    [Tok(Word(KeywordOf(s.kind)))] + RecordBody(s)
  }

  function ShapesText(shapes: seq<Shape>): seq<Item>
    requires AllCanonical(shapes)
  {
    if |shapes| == 0 then [] else ShapeText(shapes[0]) + ShapesText(shapes[1..])
  }

  function LightText(light: Light): seq<Item>
  {
    [Tok(Word("light"))] + LinesText([[], Nums(light.origin), Nums(light.color)])
  }

  /** A scene file: the light record, then one record per shape. */
  function SceneText(light: Light, shapes: seq<Shape>): seq<Item>
    requires AllCanonical(shapes)
  {
    LightText(light) + ShapesText(shapes)
  }

  /** The tokens of a written line are read back up to its line end. */
  lemma {:induction false} ReadsLine(line: seq<Token>, after: seq<Item>)
    ensures RestOfLine(LineText(line) + after) == (line, after)
    decreases |line|
  {
    var text := LineText(line) + after;
    if |line| == 0 {
      assert text[0] == Eol && text[1..] == after;
    } else {
      assert text[0] == Tok(line[0]) && text[1..] == LineText(line[1..]) + after;
      ReadsLine(line[1..], after);
      assert [line[0]] + line[1..] == line;
    }
  }

  /** Written lines are read back by as many calls of `getline`. */
  lemma {:induction false} ReadsLines(lines: seq<seq<Token>>, after: seq<Item>)
    ensures ReadLines(Cursor(LinesText(lines) + after, true), |lines|) == (lines, Cursor(after, true))
    decreases |lines|
  {
    if |lines| > 0 {
      var init, last := lines[..|lines| - 1], lines[|lines| - 1];
      var c := Cursor(LinesText(lines) + after, true);
      var mid := LineText(last) + after;
      assert LinesText(lines) == LinesText(init) + LineText(last);
      assert c.rest == LinesText(init) + mid;
      ReadsLines(init, mid);
      assert ReadLines(c, |lines| - 1) == (init, Cursor(mid, true));
      ReadsLine(last, after);
      assert mid != [];
      assert NextLine(Cursor(mid, true)) == (last, Cursor(after, true));
      assert init + [last] == lines;
    } else {
      assert lines == [] && LinesText(lines) + after == after;
    }
  }

  /** A written point scans back as that point. */
  lemma ScansNums(v: Vec3, data: seq<Vec3>, default: Vec3)
    ensures Push(data, Nums(v)) == data + [v] && Field(Nums(v), default) == v
  {
  }

  /** `sscanf` reads back the numbers a line starts with, whatever follows
      them. */
  lemma ScansWritten(v: Vec3, x: real, rest: seq<Token>)
    ensures Scan3(Nums(v) + rest) == Some(v)
    ensures Scan1([Num(x)] + rest) == Some(x)
  {
  }

  /** A line that starts with a word scans nothing. */
  lemma WordDoesNotScan(w: string, rest: seq<Token>)
    ensures Scan3([Word(w)] + rest).None? && Scan1([Word(w)] + rest).None?
  {
  }

  /** The closing lines of a written shape set its four closing fields. */
  lemma ReadsFinish(s: Shape, t: Shape)
    ensures Finish(FinishLines(s), t)
      == t.(color := s.color, specularColor := s.specularColor,
            specularHighLight := s.specularHighLight, pex := s.pex)
  {
    ScansNums(s.color, [], t.color);
    ScansNums(s.specularColor, [], t.specularColor);
    ScansNums(s.specularHighLight, [], t.specularHighLight);
  }

  /** The keyword of a record is read back by `>>`. */
  lemma ReadsKeyword(w: string, after: seq<Item>)
    ensures NextWord(Cursor([Tok(Word(w))] + after, true)) == (Word(w), Cursor(after, true))
  {
    assert ([Tok(Word(w))] + after)[1..] == after;
  }

  /** A sphere record is read back as the sphere it describes. */
  lemma ReadsSphere(s: Shape, after: seq<Item>)
    requires Canonical(s) && s.kind == SphereKind
    ensures ReadSphere(Cursor(RecordBody(s) + after, true)) == (s, Cursor(after, true))
  {
    var head, tail := [[], Nums(s.data[0])], [[]] + FinishLines(s);
    var radius := [Tok(Num(s.addition))];
    var afterHead := radius + (LinesText(tail) + after);
    assert RecordBody(s) + after == LinesText(head) + afterHead;
    ReadsLines(head, afterHead);
    assert afterHead[0] == Tok(Num(s.addition)) && afterHead[1..] == LinesText(tail) + after;
    var radiusRead := NextFloat(Cursor(afterHead, true));
    assert radiusRead == (s.addition, Cursor(LinesText(tail) + after, true));
    ReadsLines(tail, after);
    assert tail[1..] == FinishLines(s);
    ScansNums(s.data[0], [], Zero);
    assert s.data == [s.data[0]];
    ReadsFinish(s, Blank(SphereKind).(data := s.data, addition := s.addition));
    assert Push([], head[1]) == s.data;
  }

  /** A plane record is read back as the plane it describes. */
  lemma ReadsPlane(s: Shape, after: seq<Item>)
    requires Canonical(s) && s.kind == PlaneKind
    ensures ReadPlane(Cursor(RecordBody(s) + after, true)) == (s, Cursor(after, true))
  {
    var lines := [[], Nums(s.data[0]), Nums(s.data[1])] + FinishLines(s);
    ReadsLines(lines, after);
    assert RecordBody(s) == LinesText(lines);
    assert lines[1] == Nums(s.data[0]) && lines[2] == Nums(s.data[1]);
    assert lines[3..] == FinishLines(s);
    ScansNums(s.data[0], [], Zero);
    ScansNums(s.data[1], [s.data[0]], Zero);
    assert s.data == [s.data[0], s.data[1]];
    ReadsFinish(s, Blank(PlaneKind).(data := s.data));
    assert Push(Push([], lines[1]), lines[2]) == s.data;
  }

  /** A triangle record is read back as the triangle it describes. */
  lemma ReadsTriangle(s: Shape, after: seq<Item>)
    requires Canonical(s) && s.kind == TriangleKind
    ensures ReadTriangle(Cursor(RecordBody(s) + after, true)) == (s, Cursor(after, true))
  {
    var lines := [[], Nums(s.data[0]), Nums(s.data[1]), Nums(s.data[2])] + FinishLines(s);
    ReadsLines(lines, after);
    assert RecordBody(s) == LinesText(lines);
    assert lines[1] == Nums(s.data[0]) && lines[2] == Nums(s.data[1]) && lines[3] == Nums(s.data[2]);
    assert lines[4..] == FinishLines(s);
    ScansNums(s.data[0], [], Zero);
    ScansNums(s.data[1], [s.data[0]], Zero);
    ScansNums(s.data[2], [s.data[0], s.data[1]], Zero);
    assert s.data == [s.data[0], s.data[1], s.data[2]];
    ReadsFinish(s, Blank(TriangleKind).(data := s.data));
    assert Push(Push(Push([], lines[1]), lines[2]), lines[3]) == s.data;
  }

  /** A written shape record is one pass of the loop that appends that shape. */
  lemma StepsShape(s: Shape, after: seq<Item>, acc: Loaded)
    requires Canonical(s)
    ensures Step(Cursor(ShapeText(s) + after, true), acc) == (Cursor(after, true), acc.(shapes := acc.shapes + [s]))
  {
    var body := RecordBody(s);
    assert ShapeText(s) + after == [Tok(Word(KeywordOf(s.kind)))] + (body + after);
    ReadsKeyword(KeywordOf(s.kind), body + after);
    if s.kind == SphereKind {
      ReadsSphere(s, after);
    } else if s.kind == PlaneKind {
      ReadsPlane(s, after);
    } else {
      ReadsTriangle(s, after);
    }
  }

  lemma ReadsShape(s: Shape, after: seq<Item>, acc: Loaded)
    requires Canonical(s)
    ensures Load(Cursor(ShapeText(s) + after, true), acc) == Load(Cursor(after, true), acc.(shapes := acc.shapes + [s]))
  {
    StepsShape(s, after, acc);
  }

  /** A written light record replaces the light and leaves the shapes alone. */
  lemma ReadsLightText(light: Light, after: seq<Item>, acc: Loaded)
    ensures Load(Cursor(LightText(light) + after, true), acc) == Load(Cursor(after, true), acc.(light := light))
  {
    var lines := [[], Nums(light.origin), Nums(light.color)];
    assert LightText(light) + after == [Tok(Word("light"))] + (LinesText(lines) + after);
    ReadsKeyword("light", LinesText(lines) + after);
    ReadsLines(lines, after);
    ScansNums(light.origin, [], acc.light.origin);
    ScansNums(light.color, [], acc.light.color);
    assert Step(Cursor(LightText(light) + after, true), acc) == (Cursor(after, true), acc.(light := light));
  }

  /** A line opened by `#` is skipped whatever it holds. */
  lemma ReadsComment(line: seq<Token>, after: seq<Item>, acc: Loaded)
    ensures Load(Cursor([Tok(Word("#"))] + (LineText(line) + after), true), acc) == Load(Cursor(after, true), acc)
  {
    ReadsKeyword("#", LineText(line) + after);
    ReadsLine(line, after);
    assert LineText(line) + after != [];
    assert Step(Cursor([Tok(Word("#"))] + (LineText(line) + after), true), acc) == (Cursor(after, true), acc);
  }

  /** At the end of the file the first `>>` fails and the loop stops. */
  lemma LoadAtEnd(acc: Loaded)
    ensures Load(Cursor([], true), acc) == acc
  {
    assert Step(Cursor([], true), acc) == (Cursor([], false), acc);
  }

  /** Written shape records are read back, in order, after the shapes
      already in the list. */
  lemma {:induction false} LoadsShapes(shapes: seq<Shape>, acc: Loaded)
    requires AllCanonical(shapes)
    ensures Load(Cursor(ShapesText(shapes), true), acc) == acc.(shapes := acc.shapes + shapes)
    decreases |shapes|
  {
    if |shapes| == 0 {
      LoadAtEnd(acc);
      AppendsNothing(acc.shapes, shapes);
    } else {
      var next := acc.(shapes := acc.shapes + [shapes[0]]);
      ShapesTextCons(shapes);
      ReadsShape(shapes[0], ShapesText(shapes[1..]), acc);
      LoadsShapes(shapes[1..], next);
      ConsShapes(acc.shapes, shapes);
    }
  }

  /** Round trip: reading a written scene gives back its light, and its
      shapes appended to the list passed in. */
  lemma ReadsSceneText(light: Light, shapes: seq<Shape>, shapeList: seq<Shape>, initial: Light)
    requires AllCanonical(shapes)
    ensures ReadScene(SceneText(light, shapes), shapeList, initial) == Loaded(shapeList + shapes, light)
  {
    ReadsLightText(light, ShapesText(shapes), Loaded(shapeList, initial));
    LoadsShapes(shapes, Loaded(shapeList, light));
  }

  // ------------------------------------------------- solver helpers
  // Small algebraic and sequence facts the proofs above call; they model
  // nothing of the program on their own.

  lemma ShapesTextCons(shapes: seq<Shape>)
    requires AllCanonical(shapes) && |shapes| > 0
    ensures ShapesText(shapes) == ShapeText(shapes[0]) + ShapesText(shapes[1..])
  {
  }

  lemma AppendsNothing(list: seq<Shape>, shapes: seq<Shape>)
    requires |shapes| == 0
    ensures list + shapes == list
  {
  }

  lemma ConsShapes(list: seq<Shape>, shapes: seq<Shape>)
    requires |shapes| > 0
    ensures list + [shapes[0]] + shapes[1..] == list + shapes
  {
    assert [shapes[0]] + shapes[1..] == shapes;
  }
}
