/** `parseOBJ` of project2_ide/main.js: a Wavefront OBJ reader that keeps
    `v`, `vn` and `vt` records, fan-triangulates every `f` line and emits
    eight floats per triangle corner (position, normal, texture
    coordinate).  Lines arrive already trimmed and split into tokens, and
    each token carries the two readings the reader makes of it: the
    `parseFloat` number and the `parseInt` of its `/`-separated parts.
    A number that parses to NaN, or a part that is missing, is `None`. */
module Obj {
  import opened Num

  /** A parsed number; None stands for NaN. */
  type Float = Option<real>

  /** v/t/n of one face token; an empty part reads as Some(0). */
  datatype Corner = Corner(v: Option<int>, t: Option<int>, n: Option<int>)

  datatype Token = Token(number: Float, corner: Corner)

  /** A trimmed line and the tokens after its keyword. */
  datatype Line = Line(text: string, tokens: seq<Token>)

  datatype Kind = Skip | PositionLine | NormalLine | UvLine | FaceLine | Ignored

  predicate StartsWith(s: string, prefix: string)
  {
    |prefix| <= |s| && s[..|prefix|] == prefix
  }

  /** Blank and `#` lines are skipped, then the keywords are tried in the
      order `v `, `vn `, `vt `, `f `; anything else is ignored. */
  function Classify(text: string): (k: Kind)
    ensures k == Skip <==> text == [] || text[0] == '#'
    ensures k == PositionLine ==> StartsWith(text, "v ")
    ensures k == NormalLine ==> StartsWith(text, "vn ")
    ensures k == UvLine ==> StartsWith(text, "vt ")
    ensures k == FaceLine ==> StartsWith(text, "f ")
  {
    if text == [] || text[0] == '#' then Skip
    else if StartsWith(text, "v ") then PositionLine
    else if StartsWith(text, "vn ") then NormalLine
    else if StartsWith(text, "vt ") then UvLine
    else if StartsWith(text, "f ") then FaceLine
    else Ignored
  }

  type Triple = (Float, Float, Float)
  type Pair = (Float, Float)

  /** The three record lists and the output floats. */
  datatype ObjState = ObjState(positions: seq<Triple>, normals: seq<Triple>, uvs: seq<Pair>, vertices: seq<Float>)

  const Empty: ObjState := ObjState([], [], [], [])

  /** `parts[k]` read with `parseFloat`: a missing token gives NaN. */
  function Field(tokens: seq<Token>, k: nat): Float
  {
    if k < |tokens| then tokens[k].number else None
  }

  // ----------------------------------------------------------------- lookup

  /** A JavaScript array read: `undefined` (None) outside the array and
      for a NaN index. */
  function At<T>(list: seq<T>, k: Option<int>): Option<T>
  {
    if k.Some? && 0 <= k.value < |list| then Some(list[k.value]) else None
  }

  /** `x || d` for an array-or-undefined x (arrays are always truthy). */
  function Or<T>(x: Option<T>, d: T): T
  {
    if x.Some? then x.value else d
  }

  /** i - 1, with NaN staying NaN. */
  function Pred(i: Option<int>): Option<int>
  {
    if i.Some? then Some(i.value - 1) else None
  }

  /** A part is truthy unless it is 0 or NaN. */
  predicate Truthy(i: Option<int>)
  {
    i.Some? && i.value != 0
  }

  const Origin: Triple := (Some(0.0), Some(0.0), Some(0.0))
  const DefaultNormal: Triple := (Some(0.0), Some(1.0), Some(0.0))
  const DefaultUv: Pair := (Some(0.0), Some(0.0))

  /** `positions[vi - 1] || [0, 0, 0]`. */
  function PositionOf(st: ObjState, c: Corner): Triple
  {
    Or(At(st.positions, Pred(c.v)), Origin)
  }

  /** `(ti && uvs[ti - 1]) || [0, 0]`. */
  function UvOf(st: ObjState, c: Corner): Pair
  {
    if Truthy(c.t) then Or(At(st.uvs, Pred(c.t)), DefaultUv) else DefaultUv
  }

  /** `(ni && normals[ni - 1]) || [0, 1, 0]`. */
  function NormalOf(st: ObjState, c: Corner): Triple
  {
    if Truthy(c.n) then Or(At(st.normals, Pred(c.n)), DefaultNormal) else DefaultNormal
  }

  /** The one rule behind the three lookups: an index counts from 1, and a
      missing, zero, negative or too large index gives the default. */
  lemma LookupIsOneBased(st: ObjState, c: Corner)
    ensures PositionOf(st, c) ==
      if c.v.Some? && 1 <= c.v.value <= |st.positions| then st.positions[c.v.value - 1] else Origin
    ensures UvOf(st, c) ==
      if c.t.Some? && 1 <= c.t.value <= |st.uvs| then st.uvs[c.t.value - 1] else DefaultUv
    ensures NormalOf(st, c) ==
      if c.n.Some? && 1 <= c.n.value <= |st.normals| then st.normals[c.n.value - 1] else DefaultNormal
  {
  }

  /** The eight floats of one corner: position, normal, texture coordinate. */
  function CornerFloats(st: ObjState, c: Corner): (r: seq<Float>)
    ensures |r| == 8
  {
    var p, n, uv := PositionOf(st, c), NormalOf(st, c), UvOf(st, c);
    [p.0, p.1, p.2, n.0, n.1, n.2, uv.0, uv.1]
  }

  // ----------------------------------------------------- fan triangulation

  /** Triangles of a fan over k corners. */
  function FanCount(k: nat): nat
  {
    if k < 3 then 0 else k - 2
  }

  /** The first m fan triangles (0, i, i + 1), corner after corner. */
  function FanUpTo(cs: seq<Corner>, m: nat): (r: seq<Corner>)
    requires m + 1 < |cs| || m == 0
    ensures |r| == 3 * m
    ensures forall q :: 0 <= q < m ==> r[3 * q] == cs[0] && r[3 * q + 1] == cs[q + 1] && r[3 * q + 2] == cs[q + 2]
  {
    if m == 0 then []
    else FanUpTo(cs, m - 1) + [cs[0], cs[m], cs[m + 1]]
  }

  /** The loop `for i in 1 .. k - 2` over a face's tokens: k - 2 triangles
      sharing the first corner, none for fewer than three tokens. */
  function Fan(cs: seq<Corner>): (r: seq<Corner>)
    ensures |r| == 3 * FanCount(|cs|)
  {
    if |cs| < 3 then [] else FanUpTo(cs, |cs| - 2)
  }

  /** Triangle q of the fan is (corner 0, corner q + 1, corner q + 2). */
  lemma FanTriangle(cs: seq<Corner>, q: nat)
    requires q < FanCount(|cs|)
    ensures Fan(cs)[3 * q] == cs[0] && Fan(cs)[3 * q + 1] == cs[q + 1] && Fan(cs)[3 * q + 2] == cs[q + 2]
  {
  }

  /** The floats of a run of corners, eight per corner. */
  function FloatsOf(st: ObjState, corners: seq<Corner>): (r: seq<Float>)
    ensures |r| == 8 * |corners|
  {
    if corners == [] then []
    else FloatsOf(st, corners[..|corners| - 1]) + CornerFloats(st, corners[|corners| - 1])
  }

  /** Corner m of a run owns floats 8m .. 8m + 8. */
  lemma {:induction false} FloatsOfAt(st: ObjState, corners: seq<Corner>, m: nat)
    requires m < |corners|
    ensures FloatsOf(st, corners)[8 * m .. 8 * m + 8] == CornerFloats(st, corners[m])
  {
    var init := corners[..|corners| - 1];
    var front, last := FloatsOf(st, init), CornerFloats(st, corners[|corners| - 1]);
    assert FloatsOf(st, corners) == front + last;
    if m == |corners| - 1 {
      assert |front| == 8 * m;
      assert (front + last)[|front| .. |front| + 8] == last;
    } else {
      FloatsOfAt(st, init, m);
      assert init[m] == corners[m];
      assert 8 * m + 8 <= |front|;
      assert (front + last)[8 * m .. 8 * m + 8] == front[8 * m .. 8 * m + 8];
    }
  }

  lemma FloatsOfSnoc(st: ObjState, corners: seq<Corner>, c: Corner)
    ensures FloatsOf(st, corners + [c]) == FloatsOf(st, corners) + CornerFloats(st, c)
  {
    assert (corners + [c])[..|corners|] == corners;
  }

  /** One more fan triangle appends its three corners' floats. */
  lemma FanFloatsStep(st: ObjState, cs: seq<Corner>, i: nat)
    requires 1 <= i && i + 1 < |cs|
    ensures FloatsOf(st, FanUpTo(cs, i)) ==
      FloatsOf(st, FanUpTo(cs, i - 1)) + CornerFloats(st, cs[0]) + CornerFloats(st, cs[i]) + CornerFloats(st, cs[i + 1])
  {
    var prev := FanUpTo(cs, i - 1);
    FloatsOfSnoc(st, prev, cs[0]);
    FloatsOfSnoc(st, prev + [cs[0]], cs[i]);
    FloatsOfSnoc(st, prev + [cs[0]] + [cs[i]], cs[i + 1]);
    assert prev + [cs[0]] + [cs[i]] + [cs[i + 1]] == FanUpTo(cs, i);
  }

  function Corners(tokens: seq<Token>): (cs: seq<Corner>)
    ensures |cs| == |tokens| && forall k :: 0 <= k < |tokens| ==> cs[k] == tokens[k].corner
  {
    seq(|tokens|, k requires 0 <= k < |tokens| => tokens[k].corner)
  }

  /** What one face line appends: eight floats per corner of its fan. */
  function FaceFloats(st: ObjState, tokens: seq<Token>): (r: seq<Float>)
    ensures |r| == 24 * FanCount(|tokens|)
  {
    FloatsOf(st, Fan(Corners(tokens)))
  }

  // ------------------------------------------------------------------ lines

  /** One line of the loop. */
  function Step(st: ObjState, line: Line): (r: ObjState)
    ensures Classify(line.text) in {Skip, Ignored} ==> r == st
    ensures Classify(line.text) == PositionLine ==>
      r.positions == st.positions + [(Field(line.tokens, 0), Field(line.tokens, 1), Field(line.tokens, 2))] &&
      r.(positions := st.positions) == st
    ensures Classify(line.text) == NormalLine ==>
      r.normals == st.normals + [(Field(line.tokens, 0), Field(line.tokens, 1), Field(line.tokens, 2))] &&
      r.(normals := st.normals) == st
    ensures Classify(line.text) == UvLine ==>
      r.uvs == st.uvs + [(Field(line.tokens, 0), Field(line.tokens, 1))] && r.(uvs := st.uvs) == st
    ensures Classify(line.text) == FaceLine ==>
      r.vertices == st.vertices + FaceFloats(st, line.tokens) && r.(vertices := st.vertices) == st
  {
    var t := line.tokens;
    match Classify(line.text)
    case PositionLine => st.(positions := st.positions + [(Field(t, 0), Field(t, 1), Field(t, 2))])
    case NormalLine => st.(normals := st.normals + [(Field(t, 0), Field(t, 1), Field(t, 2))])
    case UvLine => st.(uvs := st.uvs + [(Field(t, 0), Field(t, 1))])
    case FaceLine => st.(vertices := st.vertices + FaceFloats(st, t))
    case _ => st
  }

  /** The state after reading the lines in order. */
  function ParseLines(lines: seq<Line>): ObjState
  {
    if lines == [] then Empty
    else Step(ParseLines(lines[..|lines| - 1]), lines[|lines| - 1])
  }

  /** Triangles the face lines ask for. */
  function Triangles(lines: seq<Line>): nat
  {
    if lines == [] then 0
    else
      var last := lines[|lines| - 1];
      Triangles(lines[..|lines| - 1]) + (if Classify(last.text) == FaceLine then FanCount(|last.tokens|) else 0)
  }

  function CountKind(lines: seq<Line>, k: Kind): nat
  {
    if lines == [] then 0
    else CountKind(lines[..|lines| - 1], k) + (if Classify(lines[|lines| - 1].text) == k then 1 else 0)
  }

  /** One record per record line, and 24 floats per fan triangle. */
  lemma {:induction false} ParseCounts(lines: seq<Line>)
    ensures |ParseLines(lines).positions| == CountKind(lines, PositionLine)
    ensures |ParseLines(lines).normals| == CountKind(lines, NormalLine)
    ensures |ParseLines(lines).uvs| == CountKind(lines, UvLine)
    ensures |ParseLines(lines).vertices| == 24 * Triangles(lines)
  {
    if lines != [] {
      ParseCounts(lines[..|lines| - 1]);
    }
  }

  predicate Extends(a: ObjState, b: ObjState)
  {
    a.positions <= b.positions && a.normals <= b.normals && a.uvs <= b.uvs && a.vertices <= b.vertices
  }

  /** Reading more lines only appends: every list after a prefix of the
      input is a prefix of the same list after the whole input. */
  lemma {:induction false} ParseExtends(lines: seq<Line>, k: nat)
    requires k <= |lines|
    ensures Extends(ParseLines(lines[..k]), ParseLines(lines))
  {
    if k < |lines| {
      var init := lines[..|lines| - 1];
      assert lines[..k] == init[..k];
      ParseExtends(init, k);
    } else {
      assert lines[..k] == lines;
    }
  }

  /** A face resolves against the records of the lines before it only: the
      floats line k contributes are its fan looked up in the state the
      earlier lines left, whatever follows. */
  lemma FaceUsesEarlierRecords(lines: seq<Line>, k: nat)
    requires k < |lines| && Classify(lines[k].text) == FaceLine
    ensures var before := ParseLines(lines[..k]);
      var start := |before.vertices|;
      var face := FaceFloats(before, lines[k].tokens);
      start + |face| <= |ParseLines(lines).vertices| &&
      ParseLines(lines).vertices[start .. start + |face|] == face
  {
    var before := ParseLines(lines[..k]);
    assert lines[..k + 1][..k] == lines[..k];
    assert ParseLines(lines[..k + 1]) == Step(before, lines[k]);
    ParseExtends(lines, k + 1);
  }

  // ----------------------------------------------------------------- parser

  /** `parseOBJ(text)` over its lines: the loops of the reader, returning
      the output floats, 24 per triangle the face lines ask for. */
  method ParseObj(lines: seq<Line>) returns (vertices: seq<Float>)
    ensures vertices == ParseLines(lines).vertices
    ensures |vertices| == 24 * Triangles(lines)
  {
    var st := Empty;
    for n := 0 to |lines|
      invariant st == ParseLines(lines[..n])
    {
      assert lines[..n + 1][..n] == lines[..n];
      var line := lines[n];
      var kind := Classify(line.text);
      var t := line.tokens;
      if kind == PositionLine {
        st := st.(positions := st.positions + [(Field(t, 0), Field(t, 1), Field(t, 2))]);
      } else if kind == NormalLine {
        st := st.(normals := st.normals + [(Field(t, 0), Field(t, 1), Field(t, 2))]);
      } else if kind == UvLine {
        st := st.(uvs := st.uvs + [(Field(t, 0), Field(t, 1))]);
      } else if kind == FaceLine {
        var face := EmitFace(st, t);
        st := st.(vertices := st.vertices + face);
      }
    }
    assert lines[..|lines|] == lines;
    vertices := st.vertices;
    ParseCounts(lines);
  }

  /** The triangulation loop of one face line. */
  method EmitFace(st: ObjState, tokens: seq<Token>) returns (out: seq<Float>)
    ensures out == FaceFloats(st, tokens)
  {
    var cs := Corners(tokens);
    out := [];
    if |cs| < 3 {
      return;
    }
    for i := 1 to |cs| - 1
      invariant out == FloatsOf(st, FanUpTo(cs, i - 1))
    {
      FanFloatsStep(st, cs, i);
      out := out + CornerFloats(st, cs[0]) + CornerFloats(st, cs[i]) + CornerFloats(st, cs[i + 1]);
    }
  }
}
