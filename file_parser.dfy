/**
 * The Wavefront OBJ triangle loader. Each line is given already tokenised:
 * its prefix decides the kind, and the numbers the stream extraction would
 * read are its fields. The loader collects positions, texture coordinates
 * and normals, and expands every face into three vertices looked up by
 * 1-based index in the lists built so far.
 */
module FileParser {
  import opened Vectors

  /** One interleaved vertex of the output. */
  datatype Vertex = Vertex(position: Vec3, texCoord: Vec2, normal: Vec3)

  /** One `v/vt/vn` corner of a face, 1-based. */
  datatype Corner = Corner(v: nat, vt: nat, vn: nat)

  datatype ObjLine =
    | Blank                                    // an empty line
    | PositionLine(p: Vec3)                    // `v x y z`
    | TexCoordLine(t: Vec2)                    // `vt u v`
    | NormalLine(n: Vec3)                      // `vn x y z`
    | FaceLine(c1: Corner, c2: Corner, c3: Corner)  // `f a/b/c a/b/c a/b/c`
    | Other                                    // any other prefix: comments, groups, materials

  /** What opening the path yields: a file that cannot be opened reads as no lines. */
  datatype ObjFile = Unopenable | Opened(lines: seq<ObjLine>)

  /** The three lists and the output after some prefix of the file. */
  datatype ParseState = ParseState(positions: seq<Vec3>, texCoords: seq<Vec2>, normals: seq<Vec3>, vertices: seq<Vertex>)

  const Start: ParseState := ParseState([], [], [], [])

  predicate CornerInRange(st: ParseState, c: Corner)
  {
    1 <= c.v <= |st.positions| && 1 <= c.vt <= |st.texCoords| && 1 <= c.vn <= |st.normals|
  }

  /** A face may only refer to entries defined on earlier lines. */
  predicate LineInRange(st: ParseState, line: ObjLine)
  {
    line.FaceLine? ==> CornerInRange(st, line.c1) && CornerInRange(st, line.c2) && CornerInRange(st, line.c3)
  }

  /** The vertex a corner denotes: each of its indices counts from 1. */
  function Lookup(st: ParseState, c: Corner): Vertex
    requires CornerInRange(st, c)
  {
    Vertex(st.positions[c.v - 1], st.texCoords[c.vt - 1], st.normals[c.vn - 1])
  }

  /** The effect of one line. */
  function Feed(st: ParseState, line: ObjLine): ParseState
    requires LineInRange(st, line)
  {
    match line
    case Blank => st
    case PositionLine(p) => st.(positions := st.positions + [p])
    case TexCoordLine(t) => st.(texCoords := st.texCoords + [t])
    case NormalLine(n) => st.(normals := st.normals + [n])
    case FaceLine(c1, c2, c3) => st.(vertices := st.vertices + [Lookup(st, c1), Lookup(st, c2), Lookup(st, c3)])
    case Other => st
  }

  /** Every face of `lines` refers only to entries defined before it. */
  predicate WellIndexed(lines: seq<ObjLine>)
    decreases |lines|, 0
  {
    |lines| == 0 ||
    (WellIndexed(lines[..|lines| - 1]) && LineInRange(ParseLines(lines[..|lines| - 1]), lines[|lines| - 1]))
  }

  /** The state after reading `lines` from the top. */
  function ParseLines(lines: seq<ObjLine>): ParseState
    requires WellIndexed(lines)
    decreases |lines|, 1
  {
    if |lines| == 0 then Start
    else Feed(ParseLines(lines[..|lines| - 1]), lines[|lines| - 1])
  }

  function FaceCount(lines: seq<ObjLine>): nat
    decreases |lines|
  {
    if |lines| == 0 then 0
    else FaceCount(lines[..|lines| - 1]) + (if lines[|lines| - 1].FaceLine? then 1 else 0)
  }

  /** Reading one more line is one more `Feed`. */
  lemma Snoc(lines: seq<ObjLine>, line: ObjLine)
    requires WellIndexed(lines) && LineInRange(ParseLines(lines), line)
    ensures WellIndexed(lines + [line])
    ensures ParseLines(lines + [line]) == Feed(ParseLines(lines), line)
    ensures FaceCount(lines + [line]) == FaceCount(lines) + (if line.FaceLine? then 1 else 0)
  {
    assert (lines + [line])[..|lines|] == lines;
  }

  /** Every prefix of a well-indexed file is well indexed. */
  lemma {:induction false} WellIndexedPrefix(lines: seq<ObjLine>, j: nat)
    requires WellIndexed(lines) && j <= |lines|
    ensures WellIndexed(lines[..j])
    decreases |lines|
  {
    if j < |lines| {
      var front := lines[..|lines| - 1];
      WellIndexedPrefix(front, j);
      assert front[..j] == lines[..j];
    } else {
      assert lines[..j] == lines;
    }
  }

  /**
   * The body of the read loop for one line: appends to the list the line's
   * prefix names, or, for a face, three looked-up vertices to the output.
   */
  method ReadLine(positions: seq<Vec3>, texCoords: seq<Vec2>, normals: seq<Vec3>, outVertices: seq<Vertex>,
                  line: ObjLine)
    returns (positions': seq<Vec3>, texCoords': seq<Vec2>, normals': seq<Vec3>, outVertices': seq<Vertex>)
    requires LineInRange(ParseState(positions, texCoords, normals, outVertices), line)
    ensures ParseState(positions', texCoords', normals', outVertices')
            == Feed(ParseState(positions, texCoords, normals, outVertices), line)
  {
    positions', texCoords', normals', outVertices' := positions, texCoords, normals, outVertices;
    match line {
      case Blank =>
      case PositionLine(p) =>
        positions' := positions' + [p];
      case TexCoordLine(t) =>
        texCoords' := texCoords' + [t];
      case NormalLine(n) =>
        normals' := normals' + [n];
      case FaceLine(c1, c2, c3) =>
        var vertex1 := Vertex(positions[c1.v - 1], texCoords[c1.vt - 1], normals[c1.vn - 1]);
        outVertices' := outVertices' + [vertex1];
        var vertex2 := Vertex(positions[c2.v - 1], texCoords[c2.vt - 1], normals[c2.vn - 1]);
        outVertices' := outVertices' + [vertex2];
        var vertex3 := Vertex(positions[c3.v - 1], texCoords[c3.vt - 1], normals[c3.vn - 1]);
        outVertices' := outVertices' + [vertex3];
      case Other =>
    }
  }

  /**
   * Parses the file into its triangle vertices. The output is built from
   * empty, so nothing from a previous call survives; an unopenable file reads
   * as no lines and gives an empty output.
   */
  method ParseObj(file: ObjFile) returns (outVertices: seq<Vertex>)
    requires file.Opened? ==> WellIndexed(file.lines)
    ensures file.Unopenable? ==> outVertices == []
    ensures file.Opened? ==> outVertices == ParseLines(file.lines).vertices
  {
    var positions: seq<Vec3> := [];
    var texCoords: seq<Vec2> := [];
    var normals: seq<Vec3> := [];
    outVertices := [];

    var lines := if file.Opened? then file.lines else [];
    var i := 0;
    while i < |lines|
      invariant 0 <= i <= |lines|
      invariant WellIndexed(lines[..i])
      invariant ParseLines(lines[..i]) == ParseState(positions, texCoords, normals, outVertices)
    {
      WellIndexedPrefix(lines, i + 1);
      assert lines[..i + 1][..i] == lines[..i];
      positions, texCoords, normals, outVertices := ReadLine(positions, texCoords, normals, outVertices, lines[i]);
      i := i + 1;
    }
    assert lines[..i] == lines;
  }

  /** Every face contributes exactly three vertices and nothing else contributes any. */
  lemma {:induction false} VertexCount(lines: seq<ObjLine>)
    requires WellIndexed(lines)
    ensures |ParseLines(lines).vertices| == 3 * FaceCount(lines)
    decreases |lines|
  {
    if |lines| > 0 {
      VertexCount(lines[..|lines| - 1]);
    }
  }

  /** Output is only ever appended to: reading further lines extends it. */
  lemma {:induction false} OutputGrowsByAppending(lines: seq<ObjLine>, j: nat)
    requires WellIndexed(lines) && j <= |lines|
    ensures WellIndexed(lines[..j])
    ensures ParseLines(lines[..j]).vertices <= ParseLines(lines).vertices
    decreases |lines|
  {
    WellIndexedPrefix(lines, j);
    if j < |lines| {
      var front := lines[..|lines| - 1];
      OutputGrowsByAppending(front, j);
      assert front[..j] == lines[..j];
    } else {
      assert lines[..j] == lines;
    }
  }

  /**
   * The face on line k supplies output vertices 3f, 3f + 1 and 3f + 2, where
   * f is the number of faces before it, in corner order and looked up in the
   * lists as they stood when the face was read.
   */
  lemma FaceVertices(lines: seq<ObjLine>, k: nat)
    requires WellIndexed(lines) && k < |lines| && lines[k].FaceLine?
    ensures WellIndexed(lines[..k]) && WellIndexed(lines[..k + 1])
    ensures LineInRange(ParseLines(lines[..k]), lines[k])
    ensures 3 * FaceCount(lines[..k]) + 3 <= |ParseLines(lines).vertices|
    ensures ParseLines(lines).vertices[3 * FaceCount(lines[..k])] == Lookup(ParseLines(lines[..k]), lines[k].c1)
    ensures ParseLines(lines).vertices[3 * FaceCount(lines[..k]) + 1] == Lookup(ParseLines(lines[..k]), lines[k].c2)
    ensures ParseLines(lines).vertices[3 * FaceCount(lines[..k]) + 2] == Lookup(ParseLines(lines[..k]), lines[k].c3)
  {
    WellIndexedPrefix(lines, k);
    WellIndexedPrefix(lines, k + 1);
    var head := lines[..k + 1];
    assert head[..k] == lines[..k];
    var before := ParseLines(lines[..k]);
    VertexCount(lines[..k]);
    assert ParseLines(head).vertices == before.vertices + [Lookup(before, lines[k].c1), Lookup(before, lines[k].c2), Lookup(before, lines[k].c3)];
    OutputGrowsByAppending(lines, k + 1);
  }

  /** A line that is not a face leaves the output as it was. */
  lemma NonFaceAddsNothing(lines: seq<ObjLine>, line: ObjLine)
    requires WellIndexed(lines) && !line.FaceLine?
    ensures WellIndexed(lines + [line])
    ensures ParseLines(lines + [line]).vertices == ParseLines(lines).vertices
  {
    Snoc(lines, line);
  }

  /** Blank lines and unrecognised prefixes change nothing at all. */
  lemma IgnoredLinesChangeNothing(lines: seq<ObjLine>, line: ObjLine)
    requires WellIndexed(lines) && (line.Blank? || line.Other?)
    ensures WellIndexed(lines + [line])
    ensures ParseLines(lines + [line]) == ParseLines(lines)
  {
    Snoc(lines, line);
  }

  /**
   * Each attribute of the three vertices a face supplies comes from the
   * entry its 1-based index names in the list as it stood at that line.
   */
  lemma FaceCornerSources(lines: seq<ObjLine>, k: nat)
    requires WellIndexed(lines) && k < |lines| && lines[k].FaceLine?
    ensures WellIndexed(lines[..k])
    ensures var before, f, out := ParseLines(lines[..k]), 3 * FaceCount(lines[..k]), ParseLines(lines).vertices;
      var c1, c2, c3 := lines[k].c1, lines[k].c2, lines[k].c3;
      f + 3 <= |out| &&
      1 <= c1.v <= |before.positions| && 1 <= c1.vt <= |before.texCoords| && 1 <= c1.vn <= |before.normals| &&
      1 <= c2.v <= |before.positions| && 1 <= c2.vt <= |before.texCoords| && 1 <= c2.vn <= |before.normals| &&
      1 <= c3.v <= |before.positions| && 1 <= c3.vt <= |before.texCoords| && 1 <= c3.vn <= |before.normals| &&
      out[f] == Vertex(before.positions[c1.v - 1], before.texCoords[c1.vt - 1], before.normals[c1.vn - 1]) &&
      out[f + 1] == Vertex(before.positions[c2.v - 1], before.texCoords[c2.vt - 1], before.normals[c2.vn - 1]) &&
      out[f + 2] == Vertex(before.positions[c3.v - 1], before.texCoords[c3.vt - 1], before.normals[c3.vn - 1])
  {
    FaceVertices(lines, k);
  }
}
