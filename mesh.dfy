// One drawable mesh: its vertices, its triangle index list and its
// textures, and the sequence of graphics calls its Draw issues. A texture
// is bound to the texture unit of its position in the list, and the
// sampler uniform "material.<type><number>" is set to that unit, where
// diffuse and specular textures are numbered by two independent counters
// and textures of any other type get no number.
//
// The graphics calls are recorded as a list of GlCall values rather than
// performed; buffer creation, vertex-attribute setup and deletion are not
// modelled.
module Mesh {
  import opened Glm
  import opened Strings

  datatype Vertex = Vertex(position: Vec3, normal: Vec3, texCoords: Vec2)

  datatype Texture = Texture(id: nat, kind: string, path: string)

  const TypeDiffuse: string := "texture_diffuse"
  const TypeSpecular: string := "texture_specular"
  const MaterialPrefix: string := "material."

  /** The graphics calls Draw makes, in the order it makes them. */
  datatype GlCall =
    | UseProgram
    | ActiveTexture(unit: nat)
    | SetInt(name: string, value: int)
    | BindTexture(id: nat)
    | DrawElements(count: nat)

  /** Number of textures of the given type in ts. */
  function CountKind(ts: seq<Texture>, kind: string): nat {
    if ts == [] then 0
    else CountKind(ts[..|ts| - 1], kind) + (if ts[|ts| - 1].kind == kind then 1 else 0)
  }

  /** The number appended to texture i's type: how many of its type come before it. */
  function Suffix(ts: seq<Texture>, i: nat): string
    requires i < |ts|
  {
    var kind := ts[i].kind;
    if kind == TypeDiffuse then Decimal(CountKind(ts[..i], TypeDiffuse))
    else if kind == TypeSpecular then Decimal(CountKind(ts[..i], TypeSpecular))
    else ""
  }

  /** The sampler uniform that texture i of ts is assigned to. */
  function UniformName(ts: seq<Texture>, i: nat): string
    requires i < |ts|
  {
    MaterialPrefix + ts[i].kind + Suffix(ts, i)
  }

  /** The uniform name of every texture, in list order. */
  function UniformNames(ts: seq<Texture>): (names: seq<string>)
    ensures |names| == |ts|
  {
    seq(|ts|, i requires 0 <= i < |ts| => UniformName(ts, i))
  }

  /**
   * For each texture in turn: select unit i, point the uniform names[i] at
   * unit i, bind the texture.
   */
  function TextureCalls(ts: seq<Texture>, names: seq<string>): seq<GlCall>
    requires |names| == |ts|
  {
    if ts == [] then []
    else
      var i := |ts| - 1;
      TextureCalls(ts[..i], names[..i]) + [ActiveTexture(i), SetInt(names[i], i), BindTexture(ts[i].id)]
  }

  /** Everything Draw issues for a mesh with these textures and indexCount indices. */
  function DrawCalls(ts: seq<Texture>, indexCount: nat): seq<GlCall> {
    [UseProgram] + TextureCalls(ts, UniformNames(ts)) + [DrawElements(indexCount)]
  }

  /** The uniform writes among a list of calls, as (name, value) pairs, in order. */
  function UniformWrites(calls: seq<GlCall>): seq<(string, int)> {
    if calls == [] then []
    else
      var last := calls[|calls| - 1];
      UniformWrites(calls[..|calls| - 1]) + (if last.SetInt? then [(last.name, last.value)] else [])
  }

  /** The uniform names given to the textures of one type, in list order. */
  function NamesOfKind(ts: seq<Texture>, kind: string): seq<string> {
    if ts == [] then []
    else
      var i := |ts| - 1;
      NamesOfKind(ts[..i], kind) + (if ts[i].kind == kind then [UniformName(ts, i)] else [])
  }

  /** A texture's uniform name depends only on the textures up to and including it. */
  lemma UniformNameOfPrefix(ts: seq<Texture>, j: nat, i: nat)
    requires i < j <= |ts|
    ensures UniformName(ts[..j], i) == UniformName(ts, i)
  {
    assert ts[..j][..i] == ts[..i];
  }

  lemma {:induction false} TextureCallsLength(ts: seq<Texture>, names: seq<string>)
    requires |names| == |ts|
    ensures |TextureCalls(ts, names)| == 3 * |ts|
  {
    if ts != [] {
      var n := |ts| - 1;
      TextureCallsLength(ts[..n], names[..n]);
    }
  }

  lemma {:induction false} TextureCallsAt(ts: seq<Texture>, names: seq<string>, i: nat)
    requires |names| == |ts| && i < |ts|
    ensures |TextureCalls(ts, names)| == 3 * |ts|
    ensures TextureCalls(ts, names)[3 * i] == ActiveTexture(i)
    ensures TextureCalls(ts, names)[3 * i + 1] == SetInt(names[i], i)
    ensures TextureCalls(ts, names)[3 * i + 2] == BindTexture(ts[i].id)
  {
    var n := |ts| - 1;
    var earlier := TextureCalls(ts[..n], names[..n]);
    TextureCallsLength(ts[..n], names[..n]);
    assert TextureCalls(ts, names) == earlier + [ActiveTexture(n), SetInt(names[n], n), BindTexture(ts[n].id)];
    if i < n {
      TextureCallsAt(ts[..n], names[..n], i);
    }
  }

  /** The calls for the first i + 1 textures extend those for the first i by texture i's three. */
  lemma TextureCallsStep(ts: seq<Texture>, names: seq<string>, i: nat)
    requires |names| == |ts| && i < |ts|
    ensures [UseProgram] + TextureCalls(ts[..i + 1], names[..i + 1]) ==
      [UseProgram] + TextureCalls(ts[..i], names[..i]) + [ActiveTexture(i), SetInt(names[i], i), BindTexture(ts[i].id)]
  {
    assert ts[..i + 1][..i] == ts[..i];
    assert names[..i + 1][..i] == names[..i];
  }

  /**
   * Draw makes the program current, then for texture i selects unit i, sets
   * the texture's uniform to i and binds the texture, and finally draws as
   * many indices as the mesh has.
   */
  lemma DrawCallsAt(ts: seq<Texture>, indexCount: nat)
    ensures |DrawCalls(ts, indexCount)| == 3 * |ts| + 2
    ensures DrawCalls(ts, indexCount)[0] == UseProgram
    ensures DrawCalls(ts, indexCount)[3 * |ts| + 1] == DrawElements(indexCount)
    ensures forall i :: 0 <= i < |ts| ==>
      DrawCalls(ts, indexCount)[3 * i + 1] == ActiveTexture(i) &&
      DrawCalls(ts, indexCount)[3 * i + 2] == SetInt(UniformName(ts, i), i) &&
      DrawCalls(ts, indexCount)[3 * i + 3] == BindTexture(ts[i].id)
  {
    var names := UniformNames(ts);
    var tc := TextureCalls(ts, names);
    TextureCallsLength(ts, names);
    var d := DrawCalls(ts, indexCount);
    Bracketed(UseProgram, tc, DrawElements(indexCount));
    forall i | 0 <= i < |ts|
      ensures d[3 * i + 1] == ActiveTexture(i)
      ensures d[3 * i + 2] == SetInt(UniformName(ts, i), i)
      ensures d[3 * i + 3] == BindTexture(ts[i].id)
    {
      TextureCallsAt(ts, names, i);
    }
  }

  /** Indexing into a list with one call added at each end. */
  lemma Bracketed(first: GlCall, middle: seq<GlCall>, last: GlCall)
    ensures |[first] + middle + [last]| == |middle| + 2
    ensures ([first] + middle + [last])[0] == first
    ensures ([first] + middle + [last])[|middle| + 1] == last
    ensures forall k :: 0 <= k < |middle| ==> ([first] + middle + [last])[k + 1] == middle[k]
  {
  }

  lemma {:induction false} UniformWritesAppend(a: seq<GlCall>, b: seq<GlCall>)
    ensures UniformWrites(a + b) == UniformWrites(a) + UniformWrites(b)
    decreases |b|
  {
    if b != [] {
      var n := |b| - 1;
      assert (a + b)[..|a + b| - 1] == a + b[..n];
      UniformWritesAppend(a, b[..n]);
    } else {
      assert a + b == a;
    }
  }

  /**
   * Exactly one uniform is written per texture, in texture order, and the
   * value written for texture i is its unit, i.
   */
  lemma OneUniformPerTexture(ts: seq<Texture>, indexCount: nat)
    ensures |UniformWrites(DrawCalls(ts, indexCount))| == |ts|
    ensures forall i :: 0 <= i < |ts| ==> UniformWrites(DrawCalls(ts, indexCount))[i] == (UniformName(ts, i), i)
  {
    var names := UniformNames(ts);
    var tc := TextureCalls(ts, names);
    var w := UniformWrites(tc);
    TextureUniformWrites(ts, names);
    UniformWritesAppend([UseProgram], tc);
    UniformWritesAppend([UseProgram] + tc, [DrawElements(indexCount)]);
    assert UniformWrites([UseProgram]) == [];
    assert UniformWrites([DrawElements(indexCount)]) == [];
    assert [] + w + [] == w;
    assert DrawCalls(ts, indexCount) == ([UseProgram] + tc) + [DrawElements(indexCount)];
    assert UniformWrites(DrawCalls(ts, indexCount)) == w;
  }

  lemma StepWritesOne(step: seq<GlCall>)
    requires |step| == 3 && !step[0].SetInt? && step[1].SetInt? && !step[2].SetInt?
    ensures UniformWrites(step) == [(step[1].name, step[1].value)]
  {
    assert [step[0]][..0] == [];
    assert UniformWrites([step[0]]) == [];
    assert step[..2][..1] == [step[0]];
    assert UniformWrites(step[..2]) == [(step[1].name, step[1].value)];
    assert step[..|step| - 1] == step[..2];
  }

  lemma {:induction false} TextureUniformWrites(ts: seq<Texture>, names: seq<string>)
    requires |names| == |ts|
    ensures |UniformWrites(TextureCalls(ts, names))| == |ts|
    ensures forall i :: 0 <= i < |ts| ==> UniformWrites(TextureCalls(ts, names))[i] == (names[i], i)
  {
    if ts != [] {
      var n := |ts| - 1;
      var step := [ActiveTexture(n), SetInt(names[n], n), BindTexture(ts[n].id)];
      var earlier := TextureCalls(ts[..n], names[..n]);
      TextureUniformWrites(ts[..n], names[..n]);
      UniformWritesAppend(earlier, step);
      StepWritesOne(step);
      assert UniformWrites(TextureCalls(ts, names)) == UniformWrites(earlier) + [(names[n], n)];
    }
  }

  lemma CountKindStep(ts: seq<Texture>, i: nat, kind: string)
    requires i < |ts|
    ensures CountKind(ts[..i + 1], kind) == CountKind(ts[..i], kind) + (if ts[i].kind == kind then 1 else 0)
  {
    assert ts[..i + 1][..i] == ts[..i];
  }

  /**
   * The diffuse textures (and, separately, the specular ones) are named
   * with the numbers 0, 1, 2, ... in list order, however they are
   * interleaved with textures of other types.
   */
  lemma {:induction false} KindNumbering(ts: seq<Texture>, kind: string)
    requires kind == TypeDiffuse || kind == TypeSpecular
    ensures |NamesOfKind(ts, kind)| == CountKind(ts, kind)
    ensures forall k :: 0 <= k < CountKind(ts, kind) ==> NamesOfKind(ts, kind)[k] == MaterialPrefix + kind + Decimal(k)
  {
    if ts != [] {
      var n := |ts| - 1;
      var earlier := NamesOfKind(ts[..n], kind);
      KindNumbering(ts[..n], kind);
      if ts[n].kind == kind {
        assert UniformName(ts, n) == MaterialPrefix + kind + Decimal(CountKind(ts[..n], kind));
        assert NamesOfKind(ts, kind) == earlier + [UniformName(ts, n)];
      } else {
        assert NamesOfKind(ts, kind) == earlier;
      }
    }
  }

  /** A texture of any other type is named by its type alone and takes no number. */
  lemma OtherKindUnnumbered(ts: seq<Texture>, i: nat)
    requires i < |ts| && ts[i].kind != TypeDiffuse && ts[i].kind != TypeSpecular
    ensures UniformName(ts, i) == MaterialPrefix + ts[i].kind
    ensures CountKind(ts[..i + 1], TypeDiffuse) == CountKind(ts[..i], TypeDiffuse)
    ensures CountKind(ts[..i + 1], TypeSpecular) == CountKind(ts[..i], TypeSpecular)
  {
    CountKindStep(ts, i, TypeDiffuse);
    CountKindStep(ts, i, TypeSpecular);
  }

  lemma {:induction false} CountKindMonotone(ts: seq<Texture>, i: nat, j: nat, kind: string)
    requires i <= j <= |ts|
    ensures CountKind(ts[..i], kind) <= CountKind(ts[..j], kind)
    decreases j - i
  {
    if i < j {
      CountKindMonotone(ts, i, j - 1, kind);
      CountKindStep(ts, j - 1, kind);
    }
  }

  lemma CancelPrefix(p: string, x: string, y: string)
    requires p + x == p + y
    ensures x == y
  {
    assert x == (p + x)[|p|..];
    assert y == (p + y)[|p|..];
  }

  /** Character 17 of a uniform name is character 8 of the texture's type. */
  lemma NameCharacter(kind: string, suffix: string)
    requires |kind| > 8
    ensures (MaterialPrefix + kind + suffix)[17] == kind[8]
  {
  }

  /** Two numbered textures of the same type get different numbers. */
  lemma SameKindNamesDiffer(ts: seq<Texture>, i: nat, j: nat)
    requires i < j < |ts|
    requires ts[i].kind == ts[j].kind && (ts[i].kind == TypeDiffuse || ts[i].kind == TypeSpecular)
    ensures UniformName(ts, i) != UniformName(ts, j)
  {
    var kind := ts[i].kind;
    CountKindStep(ts, i, kind);
    CountKindMonotone(ts, i + 1, j, kind);
    if UniformName(ts, i) == UniformName(ts, j) {
      CancelPrefix(MaterialPrefix + kind, Suffix(ts, i), Suffix(ts, j));
      DecimalInjective(CountKind(ts[..i], kind), CountKind(ts[..j], kind));
    }
  }

  /**
   * When every texture is diffuse or specular, no two textures are
   * assigned the same uniform, so no unit assignment is overwritten.
   */
  lemma DistinctUniformNames(ts: seq<Texture>, i: nat, j: nat)
    requires forall k :: 0 <= k < |ts| ==> ts[k].kind == TypeDiffuse || ts[k].kind == TypeSpecular
    requires i < j < |ts|
    ensures UniformName(ts, i) != UniformName(ts, j)
  {
    if ts[i].kind == ts[j].kind {
      SameKindNamesDiffer(ts, i, j);
    } else {
      NameCharacter(ts[i].kind, Suffix(ts, i));
      NameCharacter(ts[j].kind, Suffix(ts, j));
    }
  }

  /** The index counts of the indexed draws among a list of calls, in order. */
  function DrawCounts(calls: seq<GlCall>): seq<nat> {
    if calls == [] then []
    else
      var last := calls[|calls| - 1];
      DrawCounts(calls[..|calls| - 1]) + (if last.DrawElements? then [last.count] else [])
  }

  lemma {:induction false} DrawCountsAppend(a: seq<GlCall>, b: seq<GlCall>)
    ensures DrawCounts(a + b) == DrawCounts(a) + DrawCounts(b)
    decreases |b|
  {
    if b != [] {
      var n := |b| - 1;
      assert (a + b)[..|a + b| - 1] == a + b[..n];
      DrawCountsAppend(a, b[..n]);
    } else {
      assert a + b == a;
    }
  }

  lemma {:induction false} TextureCallsDrawNothing(ts: seq<Texture>, names: seq<string>)
    requires |names| == |ts|
    ensures DrawCounts(TextureCalls(ts, names)) == []
  {
    if ts != [] {
      var n := |ts| - 1;
      var step := [ActiveTexture(n), SetInt(names[n], n), BindTexture(ts[n].id)];
      TextureCallsDrawNothing(ts[..n], names[..n]);
      DrawCountsAppend(TextureCalls(ts[..n], names[..n]), step);
      StepDrawsNothing(step);
    }
  }

  lemma StepDrawsNothing(step: seq<GlCall>)
    requires |step| == 3 && !step[0].DrawElements? && !step[1].DrawElements? && !step[2].DrawElements?
    ensures DrawCounts(step) == []
  {
    assert [step[0]][..0] == [];
    assert DrawCounts([step[0]]) == [];
    assert step[..2][..1] == [step[0]];
    assert DrawCounts(step[..2]) == [];
    assert step[..|step| - 1] == step[..2];
  }

  /** A mesh's calls hold exactly one indexed draw, of all its indices. */
  lemma OneDrawPerMesh(ts: seq<Texture>, indexCount: nat)
    ensures DrawCounts(DrawCalls(ts, indexCount)) == [indexCount]
  {
    var tc := TextureCalls(ts, UniformNames(ts));
    TextureCallsDrawNothing(ts, UniformNames(ts));
    DrawCountsAppend([UseProgram], tc);
    DrawCountsAppend([UseProgram] + tc, [DrawElements(indexCount)]);
    assert DrawCounts([UseProgram]) == [];
    assert DrawCounts([DrawElements(indexCount)]) == [indexCount];
  }

  class Mesh {
    const vertices: seq<Vertex>
    const indices: seq<nat>
    const textures: seq<Texture>

    /** The mesh keeps the three lists exactly as given. */
    constructor (vertices: seq<Vertex>, indices: seq<nat>, textures: seq<Texture>)
      ensures this.vertices == vertices && this.indices == indices && this.textures == textures
    {
      this.vertices := vertices;
      this.indices := indices;
      this.textures := textures;
    }

    /** Issues the calls of DrawCalls, tracking the two numbering counters as it goes. */
    method Draw() returns (calls: seq<GlCall>)
      ensures calls == DrawCalls(textures, |indices|)
    {
      calls := [UseProgram];
      var i, diffuseNr, specularNr := 0, 0, 0;
      while i < |textures|
        invariant 0 <= i <= |textures|
        invariant diffuseNr == CountKind(textures[..i], TypeDiffuse)
        invariant specularNr == CountKind(textures[..i], TypeSpecular)
        invariant calls == [UseProgram] + TextureCalls(textures[..i], UniformNames(textures)[..i])
      {
        var number := "";
        var name := textures[i].kind;
        if name == TypeDiffuse {
          number := Decimal(diffuseNr);
          diffuseNr := diffuseNr + 1;
        } else if name == TypeSpecular {
          number := Decimal(specularNr);
          specularNr := specularNr + 1;
        }
        calls := calls + [ActiveTexture(i), SetInt(MaterialPrefix + name + number, i), BindTexture(textures[i].id)];
        CountKindStep(textures, i, TypeDiffuse);
        CountKindStep(textures, i, TypeSpecular);
        assert MaterialPrefix + name + number == UniformNames(textures)[i];
        TextureCallsStep(textures, UniformNames(textures), i);
        i := i + 1;
      }
      assert textures[..i] == textures;
      assert UniformNames(textures)[..i] == UniformNames(textures);
      calls := calls + [DrawElements(|indices|)];
    }
  }
}
