/**
  The mesh of include/LearnOpenGL/Mesh.h: the stored vertex, index and
  texture lists, and the sampler naming and texture-unit assignment of
  `Mesh::Draw`. Buffer setup (`setupMesh`) and the GL calls themselves are
  not modelled; `Draw` returns the uniforms it would set and the draw it
  would issue.
 */
module Mesh {
  import opened Vec
  import opened Wrappers

  /**
    `Vertex`. A `None` field is one the loader leaves uninitialised (no
    normals in the source mesh, or no texture coordinates for the tangents).
   */
  datatype Vertex = Vertex(position: Vec3, normal: Option<Vec3>, texCoords: Vec2,
                           tangent: Option<Vec3>, bitangent: Option<Vec3>)

  /** `Texture`: GL name, sampler kind ("texture_diffuse", ...) and source path. */
  datatype Texture = Texture(id: nat, kind: string, path: string)

  datatype Mesh = Mesh(vertices: seq<Vertex>, indices: seq<nat>, textures: seq<Texture>, matShininess: real)

  const Diffuse: string := "texture_diffuse"
  const Specular: string := "texture_specular"
  const Normal: string := "texture_normal"
  const Height: string := "texture_height"

  /** The four kinds `Draw` numbers. */
  predicate KnownKind(kind: string) {
    kind == Diffuse || kind == Specular || kind == Normal || kind == Height
  }

  /** The constructor: the four lists are stored as given. */
  function MakeMesh(vertices: seq<Vertex>, indices: seq<nat>, textures: seq<Texture>, matShininess: real): (m: Mesh)
    ensures m.vertices == vertices && m.indices == indices
    ensures m.textures == textures && m.matShininess == matShininess
  {
    Mesh(vertices, indices, textures, matShininess)
  }

  /** How many of `ts` have the given kind. */
  function CountKind(ts: seq<Texture>, kind: string): nat
    decreases |ts|
  {
    if |ts| == 0 then 0
    else CountKind(ts[..|ts| - 1], kind) + (if ts[|ts| - 1].kind == kind then 1 else 0)
  }

  lemma {:induction false} CountKindMonotone(ts: seq<Texture>, a: nat, b: nat, kind: string)
    requires a <= b <= |ts|
    ensures CountKind(ts[..a], kind) <= CountKind(ts[..b], kind)
    decreases b - a
  {
    if a < b {
      CountKindMonotone(ts, a, b - 1, kind);
      assert ts[..b][..b - 1] == ts[..b - 1];
    }
  }

  function DigitChar(d: nat): char
    requires d < 10
  {
    ('0' as int + d) as char
  }

  /** `std::to_string` for a non-negative counter: decimal digits, no leading zeros. */
  function NatToString(n: nat): (s: string)
    ensures |s| >= 1
    ensures n < 10 <==> |s| == 1
    ensures forall k :: 0 <= k < |s| ==> '0' <= s[k] <= '9'
    decreases n
  {
    if n < 10 then [DigitChar(n)] else NatToString(n / 10) + [DigitChar(n % 10)]
  }

  /** Different counters print differently. */
  lemma {:induction false} NatToStringInjective(a: nat, b: nat)
    requires NatToString(a) == NatToString(b)
    ensures a == b
    decreases a
  {
    var s := NatToString(a);
    if a < 10 {
      assert b < 10;
      assert s[0] == DigitChar(a) && NatToString(b)[0] == DigitChar(b);
    } else {
      assert b >= 10;
      var pa := NatToString(a / 10);
      var pb := NatToString(b / 10);
      assert s == pa + [DigitChar(a % 10)];
      assert s == pb + [DigitChar(b % 10)];
      assert s[|s| - 1] == DigitChar(a % 10) == DigitChar(b % 10);
      assert pa == s[..|s| - 1] == pb;
      NatToStringInjective(a / 10, b / 10);
    }
  }

  /**
    The uniform name `Draw` sets for texture `i`: "material." + kind, and for
    the four known kinds the 1-based count of that kind among positions 0..i.
   */
  function UniformName(ts: seq<Texture>, i: nat): string
    requires i < |ts|
  {
    var kind := ts[i].kind;
    "material." + kind + (if KnownKind(kind) then NatToString(CountKind(ts[..i + 1], kind)) else "")
  }

  /** A texture of unknown kind gets no numeric suffix. */
  lemma UnknownKindHasNoSuffix(ts: seq<Texture>, i: nat)
    requires i < |ts| && !KnownKind(ts[i].kind)
    ensures UniformName(ts, i) == "material." + ts[i].kind
  {
  }

  /** The first texture of a known kind is numbered 1. */
  lemma FirstOfKindIsOne(ts: seq<Texture>, i: nat)
    requires i < |ts| && KnownKind(ts[i].kind)
    requires forall j :: 0 <= j < i ==> ts[j].kind != ts[i].kind
    ensures UniformName(ts, i) == "material." + ts[i].kind + "1"
  {
    CountKindNone(ts[..i], ts[i].kind);
    assert ts[..i + 1][..i] == ts[..i];
  }

  lemma {:induction false} CountKindNone(ts: seq<Texture>, kind: string)
    requires forall j :: 0 <= j < |ts| ==> ts[j].kind != kind
    ensures CountKind(ts, kind) == 0
    decreases |ts|
  {
    if |ts| > 0 {
      CountKindNone(ts[..|ts| - 1], kind);
    }
  }

  /** Two textures of the same known kind never share a uniform name. */
  lemma SameKindNamesDistinct(ts: seq<Texture>, i: nat, j: nat)
    requires i < j < |ts| && ts[i].kind == ts[j].kind && KnownKind(ts[i].kind)
    ensures UniformName(ts, i) != UniformName(ts, j)
  {
    var kind := ts[i].kind;
    CountKindMonotone(ts, i + 1, j, kind);
    assert ts[..j + 1][..j] == ts[..j];
    var ci := CountKind(ts[..i + 1], kind);
    var cj := CountKind(ts[..j + 1], kind);
    assert ci < cj;
    var pre := "material." + kind;
    if UniformName(ts, i) == UniformName(ts, j) {
      assert pre + NatToString(ci) == pre + NatToString(cj);
      assert NatToString(ci) == (pre + NatToString(ci))[|pre|..];
      assert NatToString(cj) == (pre + NatToString(cj))[|pre|..];
      NatToStringInjective(ci, cj);
    }
  }

  /** Different known kinds differ at character 17, right after "material.texture_". */
  lemma KindsDifferAt17(k1: string, k2: string, s1: string, s2: string)
    requires KnownKind(k1) && KnownKind(k2) && k1 != k2
    ensures ("material." + k1 + s1) != ("material." + k2 + s2)
  {
    assert ("material." + k1 + s1)[17] == k1[8];
    assert ("material." + k2 + s2)[17] == k2[8];
  }

  /** When every texture has a known kind, all uniform names of a mesh are distinct. */
  lemma AllUniformNamesDistinct(ts: seq<Texture>, i: nat, j: nat)
    requires i < |ts| && j < |ts| && i != j
    requires forall k :: 0 <= k < |ts| ==> KnownKind(ts[k].kind)
    ensures UniformName(ts, i) != UniformName(ts, j)
  {
    if ts[i].kind == ts[j].kind {
      if i < j { SameKindNamesDistinct(ts, i, j); } else { SameKindNamesDistinct(ts, j, i); }
    } else {
      var ki, kj := ts[i].kind, ts[j].kind;
      KindsDifferAt17(ki, kj, NatToString(CountKind(ts[..i + 1], ki)), NatToString(CountKind(ts[..j + 1], kj)));
    }
  }

  /** One sampler: its uniform name, the value it is set to and the unit the texture is bound to. */
  datatype Binding = Binding(uniform: string, unit: nat, textureId: nat)

  /** What `Draw` hands to GL: the shininess uniform, the samplers and the element count. */
  datatype DrawCall = DrawCall(shininess: real, bindings: seq<Binding>, elementCount: nat)

  /** The reference meaning of `Draw`: texture i bound to unit i under its uniform name. */
  function DrawSpec(m: Mesh): (d: DrawCall)
    ensures |d.bindings| == |m.textures|
  {
    DrawCall(m.matShininess,
             seq(|m.textures|, i requires 0 <= i < |m.textures| =>
                                 Binding(UniformName(m.textures, i), i, m.textures[i].id)),
             |m.indices|)
  }

  /**
    `Mesh::Draw` as written: one running counter per known kind, bumped
    before it is printed.
   */
  method Draw(m: Mesh) returns (d: DrawCall)
    ensures d.shininess == m.matShininess
    ensures d.elementCount == |m.indices|
    ensures |d.bindings| == |m.textures|
    ensures forall i :: 0 <= i < |m.textures| ==>
              d.bindings[i] == Binding(UniformName(m.textures, i), i, m.textures[i].id)
    ensures d == DrawSpec(m)
  {
    var diffuseNr: nat, specularNr: nat, normalNr: nat, heightNr: nat := 0, 0, 0, 0;
    var bindings: seq<Binding> := [];
    var ts := m.textures;
    var i := 0;
    while i < |ts|
      invariant 0 <= i <= |ts|
      invariant diffuseNr == CountKind(ts[..i], Diffuse)
      invariant specularNr == CountKind(ts[..i], Specular)
      invariant normalNr == CountKind(ts[..i], Normal)
      invariant heightNr == CountKind(ts[..i], Height)
      invariant |bindings| == i
      invariant forall k :: 0 <= k < i ==> bindings[k] == Binding(UniformName(ts, k), k, ts[k].id)
    {
      assert ts[..i + 1][..i] == ts[..i];
      var name := ts[i].kind;
      var number := "";
      if name == Diffuse {
        diffuseNr := diffuseNr + 1;
        number := NatToString(diffuseNr);
      } else if name == Specular {
        specularNr := specularNr + 1;
        number := NatToString(specularNr);
      } else if name == Normal {
        normalNr := normalNr + 1;
        number := NatToString(normalNr);
      } else if name == Height {
        heightNr := heightNr + 1;
        number := NatToString(heightNr);
      }
      bindings := bindings + [Binding("material." + name + number, i, ts[i].id)];
      i := i + 1;
    }
    d := DrawCall(m.matShininess, bindings, |m.indices|);
  }
}
