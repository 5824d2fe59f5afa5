/**
 * The OBJ object extractor of the Blocks exercise: constructing a
 * SceneObject scans the lines of a Wavefront OBJ file for the object
 * declaration `o <name>` and collects the `v x y z` lines that follow it,
 * stopping at the next `o` line.
 *
 * Lines are given already split into whitespace-separated tokens. The
 * scanner keeps the first token of each line in a variable that persists
 * across lines, as the source does: a blank line extracts nothing and so
 * leaves the previous line's token in place. Converting the coordinates of
 * a `v` line to floats is not modelled: `toVertex` gives the point read
 * from the tokens after the first.
 */
module SceneObjects {
  import opened Geometry

  /** The scanner's state between lines. */
  datatype ScanState = ScanState(temp: string, located: bool, done: bool, vertices: seq<Vec3f>)

  /** The first token of a line, or the previous one when the line has none. */
  function FirstToken(tokens: seq<string>, previous: string): string {
    if |tokens| > 0 then tokens[0] else previous
  }

  /**
   * The name read after `o`. When the line has no second token the
   * extraction fails and the variable keeps "o".
   */
  function DeclaredName(tokens: seq<string>): string {
    if |tokens| > 1 then tokens[1] else "o"
  }

  /** The tokens after the first: the coordinates of a `v` line. */
  function Rest(tokens: seq<string>): seq<string> {
    if |tokens| > 0 then tokens[1..] else []
  }

  /** The effect of one line on a scan that has not stopped. */
  function ScanStep(name: string, st: ScanState, tokens: seq<string>, toVertex: seq<string> -> Vec3f): ScanState
    requires !st.done
  {
    var temp := FirstToken(tokens, st.temp);
    if temp == "o" then
      if st.located then st.(temp := temp, done := true)
      else
        var declared := DeclaredName(tokens);
        st.(temp := declared, located := declared == name)
    else if st.located && temp == "v" then
      st.(temp := temp, vertices := st.vertices + [toVertex(Rest(tokens))])
    else
      st.(temp := temp)
  }

  /** The state after scanning `lines`, or after the line at which the scan stops. */
  function Scan(name: string, st: ScanState, lines: seq<seq<string>>, toVertex: seq<string> -> Vec3f): ScanState
    decreases |lines|
  {
    if lines == [] || st.done then st
    else Scan(name, ScanStep(name, st, lines[0], toVertex), lines[1..], toVertex)
  }

  function Initial(): ScanState {
    ScanState("", false, false, [])
  }

  class SceneObject {
    const name: string
    var vertices: seq<Vec3f>

    /**
     * Builds the object named `name` from the lines of the OBJ file (an
     * unreadable file gives no lines).
     */
    constructor (name: string, lines: seq<seq<string>>, toVertex: seq<string> -> Vec3f)
      ensures this.name == name
      ensures vertices == Scan(name, Initial(), lines, toVertex).vertices
    {
      this.name := name;
      vertices := [];
      new;
      var temp := "";
      var objLocated := false;
      var i := 0;
      while i < |lines|
        invariant 0 <= i <= |lines|
        invariant Scan(name, Initial(), lines, toVertex)
                  == Scan(name, ScanState(temp, objLocated, false, vertices), lines[i..], toVertex)
      {
        var tokens := lines[i];
        assert lines[i..][0] == tokens && lines[i..][1..] == lines[i + 1..];
        if |tokens| > 0 {
          temp := tokens[0];
        }
        if temp == "o" {
          if objLocated {
            break;
          }
          if |tokens| > 1 {
            temp := tokens[1];
          }
          if temp == name {
            objLocated := true;
          }
        } else if objLocated {
          if temp == "v" {
            vertices := vertices + [toVertex(Rest(tokens))];
          }
        }
        i := i + 1;
      }
    }
  }

  // A reference description of what the scan collects

  predicate IsObjectLine(tokens: seq<string>) {
    |tokens| > 0 && tokens[0] == "o"
  }

  predicate IsVertexLine(tokens: seq<string>) {
    |tokens| > 0 && tokens[0] == "v"
  }

  /** `o <name>` declares the object `name`. */
  predicate Declares(tokens: seq<string>, name: string) {
    IsObjectLine(tokens) && DeclaredName(tokens) == name
  }

  /** The points of all `v` lines, in order. */
  function VertexLines(lines: seq<seq<string>>, toVertex: seq<string> -> Vec3f): seq<Vec3f>
    decreases |lines|
  {
    if lines == [] then []
    else (if IsVertexLine(lines[0]) then [toVertex(Rest(lines[0]))] else []) + VertexLines(lines[1..], toVertex)
  }

  /** The points of the `v` lines before the first `o` line. */
  function SectionVertices(lines: seq<seq<string>>, toVertex: seq<string> -> Vec3f): seq<Vec3f>
    decreases |lines|
  {
    if lines == [] || IsObjectLine(lines[0]) then []
    else (if IsVertexLine(lines[0]) then [toVertex(Rest(lines[0]))] else []) + SectionVertices(lines[1..], toVertex)
  }

  /** The points of the `v` lines that follow the first declaration of `name`, up to the next `o` line. */
  function ObjectVertices(name: string, lines: seq<seq<string>>, toVertex: seq<string> -> Vec3f): seq<Vec3f>
    decreases |lines|
  {
    if lines == [] then []
    else if Declares(lines[0], name) then SectionVertices(lines[1..], toVertex)
    else ObjectVertices(name, lines[1..], toVertex)
  }

  predicate NoBlankLines(lines: seq<seq<string>>) {
    forall k :: 0 <= k < |lines| ==> |lines[k]| > 0
  }

  /** A line whose first token is neither `o` nor `v` never changes the collected vertices. */
  lemma OtherLinesIgnored(name: string, st: ScanState, tokens: seq<string>, toVertex: seq<string> -> Vec3f)
    requires !st.done && |tokens| > 0 && tokens[0] != "o" && tokens[0] != "v"
    ensures var r := ScanStep(name, st, tokens, toVertex);
      r.vertices == st.vertices && r.located == st.located && !r.done
  {
  }

  /**
   * A blank line inside the target's section keeps the previous line's
   * token; after a `v` line it is read as one more vertex, from no
   * coordinate tokens at all.
   */
  lemma BlankLineAfterVertex(name: string, st: ScanState, toVertex: seq<string> -> Vec3f)
    requires st.located && !st.done && st.temp == "v"
    ensures ScanStep(name, st, [], toVertex) == st.(vertices := st.vertices + [toVertex([])])
  {
  }

  /**
   * The reference description needs files without blank lines: on
   * `o A`, `v 1`, a blank line, `o B` the scan collects a second vertex from
   * the blank line, where the reference lists only the first.
   */
  lemma BlankLineBreaksReference(toVertex: seq<string> -> Vec3f)
    ensures var lines := [["o", "A"], ["v", "1"], [], ["o", "B"]];
      && Scan("A", Initial(), lines, toVertex).vertices == [toVertex(["1"]), toVertex([])]
      && ObjectVertices("A", lines, toVertex) == [toVertex(["1"])]
  {
    var lines := [["o", "A"], ["v", "1"], [], ["o", "B"]];
    var s1 := ScanStep("A", Initial(), lines[0], toVertex);
    assert s1 == ScanState("A", true, false, []);
    var s2 := ScanStep("A", s1, lines[1], toVertex);
    assert s2 == ScanState("v", true, false, [toVertex(["1"])]);
    var s3 := ScanStep("A", s2, lines[2], toVertex);
    assert s3.vertices == [toVertex(["1"]), toVertex([])] && !s3.done;
    var s4 := ScanStep("A", s3, lines[3], toVertex);
    assert s4.done && s4.vertices == s3.vertices;
    assert lines[1..][1..][1..][1..] == [];
    assert Scan("A", s3, lines[3..], toVertex) == s4;
    assert lines[1..][1..] == lines[2..] && lines[2..][1..] == lines[3..];
    assert Declares(lines[0], "A");
    assert SectionVertices(lines[3..], toVertex) == [];
    assert SectionVertices(lines[2..], toVertex) == [];
  }

  /** Once the target is located, the scan collects the section's vertices and stops at the next `o` line. */
  lemma {:induction false} ScanLocated(name: string, st: ScanState, lines: seq<seq<string>>, toVertex: seq<string> -> Vec3f)
    requires st.located && !st.done && NoBlankLines(lines)
    ensures Scan(name, st, lines, toVertex).vertices == st.vertices + SectionVertices(lines, toVertex)
    decreases |lines|
  {
    if lines != [] && !IsObjectLine(lines[0]) {
      var next := ScanStep(name, st, lines[0], toVertex);
      ScanLocated(name, next, lines[1..], toVertex);
    }
  }

  /** Before the target is located, the scan collects exactly the reference vertices. */
  lemma {:induction false} ScanSearching(name: string, st: ScanState, lines: seq<seq<string>>, toVertex: seq<string> -> Vec3f)
    requires !st.located && !st.done && NoBlankLines(lines)
    ensures Scan(name, st, lines, toVertex).vertices == st.vertices + ObjectVertices(name, lines, toVertex)
    decreases |lines|
  {
    if lines != [] {
      var next := ScanStep(name, st, lines[0], toVertex);
      if Declares(lines[0], name) {
        ScanLocated(name, next, lines[1..], toVertex);
      } else {
        ScanSearching(name, next, lines[1..], toVertex);
      }
    }
  }

  /**
   * On a file without blank lines, the object built for `name` holds the
   * points of the `v` lines after the first `o <name>` line and before the
   * next `o` line, in file order.
   */
  lemma ScanMatchesReference(name: string, lines: seq<seq<string>>, toVertex: seq<string> -> Vec3f)
    requires NoBlankLines(lines)
    ensures Scan(name, Initial(), lines, toVertex).vertices == ObjectVertices(name, lines, toVertex)
  {
    ScanSearching(name, Initial(), lines, toVertex);
  }

  lemma {:induction false} ScanNeverLocated(name: string, st: ScanState, lines: seq<seq<string>>, toVertex: seq<string> -> Vec3f)
    requires !st.located && !st.done && (st.temp == "o" ==> name != "o")
    requires forall k :: 0 <= k < |lines| ==> !Declares(lines[k], name)
    ensures Scan(name, st, lines, toVertex).vertices == st.vertices
    decreases |lines|
  {
    if lines != [] {
      var next := ScanStep(name, st, lines[0], toVertex);
      assert !Declares(lines[0], name);
      assert !next.located && (next.temp == "o" ==> name != "o");
      ScanNeverLocated(name, next, lines[1..], toVertex);
    }
  }

  /**
   * If no line declares the target, nothing is collected; this holds for
   * every file, blank lines included.
   */
  lemma NoTargetNoVertices(name: string, lines: seq<seq<string>>, toVertex: seq<string> -> Vec3f)
    requires forall k :: 0 <= k < |lines| ==> !Declares(lines[k], name)
    ensures Scan(name, Initial(), lines, toVertex).vertices == []
  {
    ScanNeverLocated(name, Initial(), lines, toVertex);
  }

  lemma {:induction false} SkipUndeclared(name: string, pre: seq<seq<string>>, rest: seq<seq<string>>, toVertex: seq<string> -> Vec3f)
    requires forall k :: 0 <= k < |pre| ==> !Declares(pre[k], name)
    ensures ObjectVertices(name, pre + rest, toVertex) == ObjectVertices(name, rest, toVertex)
    decreases |pre|
  {
    if pre != [] {
      assert (pre + rest)[0] == pre[0] && (pre + rest)[1..] == pre[1..] + rest;
      SkipUndeclared(name, pre[1..], rest, toVertex);
    } else {
      assert pre + rest == rest;
    }
  }

  lemma {:induction false} SectionOfBody(body: seq<seq<string>>, tail: seq<seq<string>>, toVertex: seq<string> -> Vec3f)
    requires forall k :: 0 <= k < |body| ==> !IsObjectLine(body[k])
    requires tail == [] || IsObjectLine(tail[0])
    ensures SectionVertices(body + tail, toVertex) == VertexLines(body, toVertex)
    decreases |body|
  {
    if body == [] {
      assert body + tail == tail;
    } else {
      assert (body + tail)[0] == body[0] && (body + tail)[1..] == body[1..] + tail;
      SectionOfBody(body[1..], tail, toVertex);
    }
  }

  /**
   * In a file laid out as `pre`, the declaration of the target, its `body`,
   * the next object's declaration and anything after it, the object gets
   * exactly the points of the `v` lines of `body`: `v` lines before the
   * declaration and those of later objects are never collected.
   */
  lemma TargetSection(name: string, pre: seq<seq<string>>, decl: seq<string>, body: seq<seq<string>>,
                      next: seq<string>, post: seq<seq<string>>, toVertex: seq<string> -> Vec3f)
    requires forall k :: 0 <= k < |pre| ==> !Declares(pre[k], name)
    requires Declares(decl, name)
    requires forall k :: 0 <= k < |body| ==> !IsObjectLine(body[k])
    requires IsObjectLine(next)
    requires NoBlankLines(pre + [decl] + body + [next] + post)
    ensures Scan(name, Initial(), pre + [decl] + body + [next] + post, toVertex).vertices == VertexLines(body, toVertex)
  {
    var lines := pre + [decl] + body + [next] + post;
    ScanMatchesReference(name, lines, toVertex);
    var rest := [decl] + body + [next] + post;
    assert lines == pre + rest;
    SkipUndeclared(name, pre, rest, toVertex);
    assert rest[0] == decl && rest[1..] == body + ([next] + post);
    SectionOfBody(body, [next] + post, toVertex);
  }
}
