/**
 * The reader of the Blender vertex/connection text file (readVerticesFile).
 *
 * The file is a sequence of lines. The exact line "Array of vertices:"
 * switches vertex mode on; every following line is one vertex (three floats)
 * until the running vertex count reaches a multiple of 8, which switches the
 * mode off again. The exact line "Array of connected vertices:" switches
 * connection mode on; the next ordinary line is a list of vertex indices,
 * local to the object just read, which are rebased onto the global vertex
 * list by adding 8 * (count / 8 - 1), after which connection mode is off.
 * Vertex mode takes precedence over connection mode, and lines that arrive
 * with neither mode on are skipped.
 *
 * Converting a line's text to numbers (the stringstream extractions) is
 * not modelled: `toVertex` gives the three floats read from a line and
 * `toIndices` the integers read from it.
 */
module VertexFile {
  import opened Geometry

  datatype Option<T> = None | Some(value: T)

  const VerticesTag: string := "Array of vertices:"
  const ConnectionsTag: string := "Array of connected vertices:"

  predicate IsTag(line: string) {
    line == VerticesTag || line == ConnectionsTag
  }

  /** The offset that turns an object-local vertex index into a global one. */
  function Offset(vertexCount: nat): int {
    8 * (vertexCount / 8 - 1)
  }

  /** Every index shifted by `offset`, in order. */
  function Rebase(indices: seq<int>, offset: int): (r: seq<int>)
    ensures |r| == |indices|
    ensures forall k :: 0 <= k < |r| ==> r[k] == indices[k] + offset
  {
    seq(|indices|, k requires 0 <= k < |indices| => indices[k] + offset)
  }

  /** The reader's two mode flags, its running vertex count and the two buffers it appends to. */
  datatype ParseState = ParseState(
    readingVertices: bool,
    readingTris: bool,
    vertexCount: nat,
    vertices: seq<Vec3f>,
    triangles: seq<int>)

  /** The state at the start of a read: both modes off, count 0, the buffers as they were. */
  function Start(vertices: seq<Vec3f>, triangles: seq<int>): ParseState {
    ParseState(false, false, 0, vertices, triangles)
  }

  /** The effect of one line: one iteration of the reading loop. */
  function Step(s: ParseState, line: string, toVertex: string -> Vec3f, toIndices: string -> seq<int>): ParseState {
    if line == VerticesTag then
      s.(readingVertices := true)
    else if line == ConnectionsTag then
      s.(readingTris := true)
    else if s.readingVertices then
      var count := s.vertexCount + 1;
      s.(vertices := s.vertices + [toVertex(line)],
         vertexCount := count,
         readingVertices := count % 8 != 0)
    else if s.readingTris then
      s.(triangles := s.triangles + Rebase(toIndices(line), Offset(s.vertexCount)),
         readingTris := false)
    else
      s
  }

  /** The effect of the lines in order. */
  function Run(s: ParseState, lines: seq<string>, toVertex: string -> Vec3f, toIndices: string -> seq<int>): ParseState
    decreases |lines|
  {
    if lines == [] then s
    else Step(Run(s, lines[..|lines| - 1], toVertex, toIndices), lines[|lines| - 1], toVertex, toIndices)
  }

  /** The vertices that vertex mode reads from `lines`, in order. */
  function Vertices(lines: seq<string>, toVertex: string -> Vec3f): (r: seq<Vec3f>)
    ensures |r| == |lines|
    ensures forall k :: 0 <= k < |lines| ==> r[k] == toVertex(lines[k])
  {
    seq(|lines|, k requires 0 <= k < |lines| => toVertex(lines[k]))
  }

  /**
   * The program-wide vertex and triangle-index buffers that the reader
   * fills and the renderer reads.
   */
  class SceneBuffers {
    var vertices: seq<Vec3f>
    var triangles: seq<int>

    constructor ()
      ensures vertices == [] && triangles == []
    {
      vertices := [];
      triangles := [];
    }

    /**
     * Reads the lines of a file into the buffers. `file` is None when the
     * file could not be opened: the result is then false and nothing changes.
     */
    method ReadVerticesFile(file: Option<seq<string>>, toVertex: string -> Vec3f, toIndices: string -> seq<int>)
      returns (ok: bool)
      modifies this
      ensures ok == file.Some?
      ensures !ok ==> vertices == old(vertices) && triangles == old(triangles)
      ensures ok ==>
        var s := Run(Start(old(vertices), old(triangles)), file.value, toVertex, toIndices);
        vertices == s.vertices && triangles == s.triangles
    {
      if file.None? {
        return false;
      }
      var lines := file.value;
      var readingVertices := false;
      var readingTris := false;
      var vertexCount: nat := 0;
      var i := 0;
      while i < |lines|
        invariant 0 <= i <= |lines|
        invariant Run(Start(old(vertices), old(triangles)), lines[..i], toVertex, toIndices)
                  == ParseState(readingVertices, readingTris, vertexCount, vertices, triangles)
      {
        var line := lines[i];
        label Line:
        assert lines[..i + 1][..i] == lines[..i];
        if line == VerticesTag {
          readingVertices := true;
        } else if line == ConnectionsTag {
          readingTris := true;
        } else if readingVertices {
          vertices := vertices + [toVertex(line)];
          vertexCount := vertexCount + 1;
          if vertexCount % 8 == 0 {
            readingVertices := false;
          }
        } else if readingTris {
          var indices := toIndices(line);
          var offset := 8 * (vertexCount / 8 - 1);
          ghost var before := triangles;
          var j := 0;
          while j < |indices|
            invariant 0 <= j <= |indices|
            invariant triangles == before + Rebase(indices[..j], offset)
            invariant vertices == old@Line(vertices)
          {
            assert Rebase(indices[..j + 1], offset) == Rebase(indices[..j], offset) + [indices[j] + offset];
            triangles := triangles + [indices[j] + offset];
            j := j + 1;
          }
          assert indices[..j] == indices;
          readingTris := false;
        }
        i := i + 1;
      }
      assert lines[..|lines|] == lines;
      return true;
    }
  }

  // Properties of a single line

  /** A tag line only sets its mode flag: both buffers and the count stay as they were. */
  lemma StepTagAddsNothing(s: ParseState, line: string, toVertex: string -> Vec3f, toIndices: string -> seq<int>)
    requires IsTag(line)
    ensures var r := Step(s, line, toVertex, toIndices);
      r.vertices == s.vertices && r.triangles == s.triangles && r.vertexCount == s.vertexCount
      && (line == VerticesTag ==> r.readingVertices && r.readingTris == s.readingTris)
      && (line == ConnectionsTag ==> r.readingTris && r.readingVertices == s.readingVertices)
  {
  }

  /**
   * In vertex mode (whatever the connection flag) an ordinary line appends
   * exactly one vertex, and the mode ends exactly when the count reaches a
   * multiple of 8.
   */
  lemma StepVertexLine(s: ParseState, line: string, toVertex: string -> Vec3f, toIndices: string -> seq<int>)
    requires !IsTag(line) && s.readingVertices
    ensures var r := Step(s, line, toVertex, toIndices);
      r.vertices == s.vertices + [toVertex(line)] && r.triangles == s.triangles
      && r.vertexCount == s.vertexCount + 1
      && (!r.readingVertices <==> r.vertexCount % 8 == 0)
      && r.readingTris == s.readingTris
  {
  }

  /**
   * In connection mode alone an ordinary line appends all its indices in
   * order, each shifted by 8 * (count / 8 - 1), and ends connection mode.
   */
  lemma StepConnectionLine(s: ParseState, line: string, toVertex: string -> Vec3f, toIndices: string -> seq<int>)
    requires !IsTag(line) && !s.readingVertices && s.readingTris
    ensures var r := Step(s, line, toVertex, toIndices);
      && r.vertices == s.vertices && r.vertexCount == s.vertexCount
      && |r.triangles| == |s.triangles| + |toIndices(line)|
      && r.triangles[..|s.triangles|] == s.triangles
      && (forall k :: 0 <= k < |toIndices(line)| ==>
            r.triangles[|s.triangles| + k] == toIndices(line)[k] + 8 * (s.vertexCount / 8 - 1))
      && !r.readingTris && !r.readingVertices
  {
    var r := Step(s, line, toVertex, toIndices);
    assert r.triangles == s.triangles + Rebase(toIndices(line), Offset(s.vertexCount));
  }

  /** A line that arrives with neither mode on changes nothing. */
  lemma StepIdle(s: ParseState, line: string, toVertex: string -> Vec3f, toIndices: string -> seq<int>)
    requires !IsTag(line) && !s.readingVertices && !s.readingTris
    ensures Step(s, line, toVertex, toIndices) == s
  {
  }

  // Properties of a sequence of lines

  lemma RunOne(s: ParseState, line: string, toVertex: string -> Vec3f, toIndices: string -> seq<int>)
    ensures Run(s, [line], toVertex, toIndices) == Step(s, line, toVertex, toIndices)
  {
    assert [line][..0] == [];
  }

  /** Reading `a` and then `b` is reading `a + b`. */
  lemma {:induction false} RunConcat(s: ParseState, a: seq<string>, b: seq<string>, toVertex: string -> Vec3f, toIndices: string -> seq<int>)
    ensures Run(s, a + b, toVertex, toIndices) == Run(Run(s, a, toVertex, toIndices), b, toVertex, toIndices)
    decreases |b|
  {
    if b == [] {
      assert a + b == a;
    } else {
      var b' := b[..|b| - 1];
      assert (a + b)[..|a + b| - 1] == a + b';
      assert (a + b)[|a + b| - 1] == b[|b| - 1];
      RunConcat(s, a, b', toVertex, toIndices);
    }
  }

  /**
   * Reading only appends: the buffers' earlier entries are never modified,
   * and the vertex buffer grows by exactly as much as the running count.
   */
  lemma {:induction false} RunAppendOnly(s: ParseState, lines: seq<string>, toVertex: string -> Vec3f, toIndices: string -> seq<int>)
    ensures var r := Run(s, lines, toVertex, toIndices);
      && |s.vertices| <= |r.vertices| && r.vertices[..|s.vertices|] == s.vertices
      && |s.triangles| <= |r.triangles| && r.triangles[..|s.triangles|] == s.triangles
      && |r.vertices| - |s.vertices| == r.vertexCount - s.vertexCount
    decreases |lines|
  {
    if lines != [] {
      var p := Run(s, lines[..|lines| - 1], toVertex, toIndices);
      RunAppendOnly(s, lines[..|lines| - 1], toVertex, toIndices);
      var r := Step(p, lines[|lines| - 1], toVertex, toIndices);
      assert r.vertices[..|p.vertices|] == p.vertices;
      assert r.triangles[..|p.triangles|] == p.triangles;
      assert r.vertices[..|s.vertices|] == p.vertices[..|s.vertices|];
      assert r.triangles[..|s.triangles|] == p.triangles[..|s.triangles|];
    }
  }

  /** Lines that arrive with neither mode on, none of them a tag, are all skipped. */
  lemma {:induction false} RunIdle(s: ParseState, lines: seq<string>, toVertex: string -> Vec3f, toIndices: string -> seq<int>)
    requires !s.readingVertices && !s.readingTris
    requires forall k :: 0 <= k < |lines| ==> !IsTag(lines[k])
    ensures Run(s, lines, toVertex, toIndices) == s
    decreases |lines|
  {
    if lines != [] {
      RunIdle(s, lines[..|lines| - 1], toVertex, toIndices);
    }
  }

  lemma CountStep(c: nat, n: nat)
    requires n < 8 - c % 8
    ensures (c + n) % 8 == c % 8 + n
    ensures (c + n + 1) % 8 == 0 <==> n + 1 == 8 - c % 8
  {
  }

  /**
   * In vertex mode, each of the next ordinary lines appends one vertex, in
   * order, until the count reaches the next multiple of 8; at that point,
   * and not before, vertex mode is off.
   */
  lemma {:induction false} VertexBlock(s: ParseState, lines: seq<string>, toVertex: string -> Vec3f, toIndices: string -> seq<int>)
    requires s.readingVertices
    requires forall k :: 0 <= k < |lines| ==> !IsTag(lines[k])
    requires |lines| <= 8 - s.vertexCount % 8
    ensures var r := Run(s, lines, toVertex, toIndices);
      && r.vertices == s.vertices + Vertices(lines, toVertex)
      && r.triangles == s.triangles
      && r.vertexCount == s.vertexCount + |lines|
      && r.readingTris == s.readingTris
      && (r.readingVertices <==> |lines| < 8 - s.vertexCount % 8)
    decreases |lines|
  {
    if lines == [] {
      assert Vertices(lines, toVertex) == [];
    } else {
      var n := |lines| - 1;
      VertexBlock(s, lines[..n], toVertex, toIndices);
      CountStep(s.vertexCount, n);
      assert Vertices(lines, toVertex) == Vertices(lines[..n], toVertex) + [toVertex(lines[n])];
    }
  }

  /** The lines of one object as the exporter writes them: 8 vertex lines, then one connection line. */
  function Block(data: seq<string>, conn: string): seq<string> {
    [VerticesTag] + data + [ConnectionsTag, conn]
  }

  predicate WellFormedObject(data: seq<string>, conn: string) {
    |data| == 8 && !IsTag(conn) && forall k :: 0 <= k < |data| ==> !IsTag(data[k])
  }

  /**
   * Reading one well-formed object block appends its 8 vertices and its
   * indices rebased by the number of vertices read before it, so that each
   * local index k in 0..7 names that object's k-th vertex in the global list.
   */
  lemma ObjectBlock(s: ParseState, data: seq<string>, conn: string, toVertex: string -> Vec3f, toIndices: string -> seq<int>)
    requires WellFormedObject(data, conn)
    requires s.vertexCount % 8 == 0 && |s.vertices| == s.vertexCount
    ensures var r := Run(s, Block(data, conn), toVertex, toIndices);
      && r == ParseState(false, false, s.vertexCount + 8,
                         s.vertices + Vertices(data, toVertex),
                         s.triangles + Rebase(toIndices(conn), s.vertexCount))
      && forall k :: 0 <= k < |toIndices(conn)| && 0 <= toIndices(conn)[k] < 8 ==>
           r.vertices[r.triangles[|s.triangles| + k]] == toVertex(data[toIndices(conn)[k]])
  {
    var s1 := Step(s, VerticesTag, toVertex, toIndices);
    RunOne(s, VerticesTag, toVertex, toIndices);
    VertexBlock(s1, data, toVertex, toIndices);
    var s2 := Run(s1, data, toVertex, toIndices);
    var s3 := Step(s2, ConnectionsTag, toVertex, toIndices);
    var s4 := Step(s3, conn, toVertex, toIndices);
    assert Offset(s3.vertexCount) == s.vertexCount;
    RunConcat(s, [VerticesTag], data, toVertex, toIndices);
    RunConcat(s, [VerticesTag] + data, [ConnectionsTag, conn], toVertex, toIndices);
    RunConcat(s2, [ConnectionsTag], [conn], toVertex, toIndices);
    RunOne(s2, ConnectionsTag, toVertex, toIndices);
    RunOne(s3, conn, toVertex, toIndices);
    assert [ConnectionsTag] + [conn] == [ConnectionsTag, conn];
    assert Block(data, conn) == [VerticesTag] + data + [ConnectionsTag, conn];
  }

  /** The text of an object: its vertex lines and its connection line. */
  datatype ObjectText = ObjectText(data: seq<string>, conn: string)

  /** A file of object blocks, in order. */
  function FileText(objects: seq<ObjectText>): seq<string>
    decreases |objects|
  {
    if objects == [] then []
    else
      var last := objects[|objects| - 1];
      FileText(objects[..|objects| - 1]) + Block(last.data, last.conn)
  }

  /** All objects' vertices, in file order. */
  function AllVertices(objects: seq<ObjectText>, toVertex: string -> Vec3f): seq<Vec3f>
    decreases |objects|
  {
    if objects == [] then []
    else AllVertices(objects[..|objects| - 1], toVertex) + Vertices(objects[|objects| - 1].data, toVertex)
  }

  /** All objects' indices, object i's shifted by 8 * i. */
  function AllTriangles(objects: seq<ObjectText>, toIndices: string -> seq<int>): seq<int>
    decreases |objects|
  {
    if objects == [] then []
    else
      var n := |objects| - 1;
      AllTriangles(objects[..n], toIndices) + Rebase(toIndices(objects[n].conn), 8 * n)
  }

  /**
   * A file made of well-formed 8-vertex object blocks is read into exactly
   * the objects' vertices in order and their indices made global.
   */
  lemma {:induction false} WellFormedFile(objects: seq<ObjectText>, toVertex: string -> Vec3f, toIndices: string -> seq<int>)
    requires forall i :: 0 <= i < |objects| ==> WellFormedObject(objects[i].data, objects[i].conn)
    ensures Run(Start([], []), FileText(objects), toVertex, toIndices)
            == ParseState(false, false, 8 * |objects|, AllVertices(objects, toVertex), AllTriangles(objects, toIndices))
    decreases |objects|
  {
    if objects != [] {
      var n := |objects| - 1;
      var prefix := objects[..n];
      WellFormedFile(prefix, toVertex, toIndices);
      var s := Run(Start([], []), FileText(prefix), toVertex, toIndices);
      RunAppendOnly(Start([], []), FileText(prefix), toVertex, toIndices);
      RunConcat(Start([], []), FileText(prefix), Block(objects[n].data, objects[n].conn), toVertex, toIndices);
      ObjectBlock(s, objects[n].data, objects[n].conn, toVertex, toIndices);
    }
  }
}
