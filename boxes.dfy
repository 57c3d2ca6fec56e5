/** The static blocks of the level (BoxObject in object.cpp): a model matrix
    built as glm::translate followed by glm::scale, and the eight world-space
    corners of the unit cube under that matrix. */
module Boxes {
  import opened Vectors

  datatype Vec4 = Vec4(x: real, y: real, z: real, w: real)

  /** glm::mat4, kept as its four columns, in glm's column-major order. */
  datatype Mat4 = Mat4(c0: Vec4, c1: Vec4, c2: Vec4, c3: Vec4)

  function Add4(a: Vec4, b: Vec4): Vec4 { Vec4(a.x + b.x, a.y + b.y, a.z + b.z, a.w + b.w) }
  function Scale4(a: Vec4, k: real): Vec4 { Vec4(a.x * k, a.y * k, a.z * k, a.w * k) }

  const Identity: Mat4 :=
    Mat4(Vec4(1.0, 0.0, 0.0, 0.0), Vec4(0.0, 1.0, 0.0, 0.0), Vec4(0.0, 0.0, 1.0, 0.0), Vec4(0.0, 0.0, 0.0, 1.0))

  /** glm::translate(m, v): the last column becomes m[0]*v.x + m[1]*v.y + m[2]*v.z + m[3]. */
  function Translate(m: Mat4, v: Vec3): Mat4
  {
    Mat4(m.c0, m.c1, m.c2,
         Add4(Add4(Add4(Scale4(m.c0, v.x), Scale4(m.c1, v.y)), Scale4(m.c2, v.z)), m.c3))
  }

  /** glm::scale(m, v): the first three columns are multiplied by v's components. */
  function ScaleBy(m: Mat4, v: Vec3): Mat4
  {
    Mat4(Scale4(m.c0, v.x), Scale4(m.c1, v.y), Scale4(m.c2, v.z), m.c3)
  }

  /** m * p for a column-major matrix. */
  function Apply(m: Mat4, p: Vec4): Vec4
  {
    Add4(Add4(Add4(Scale4(m.c0, p.x), Scale4(m.c1, p.y)), Scale4(m.c2, p.z)), Scale4(m.c3, p.w))
  }

  function Point(p: Vec3): Vec4 { Vec4(p.x, p.y, p.z, 1.0) }

  /** A static block: its centre and its size along each axis
      (the colour, used only for drawing, is not modelled). */
  datatype BoxObject = BoxObject(position: Vec3, scale: Vec3)

  /** BoxObject::model */
  function Model(b: BoxObject): Mat4
  {
    ScaleBy(Translate(Identity, b.position), b.scale)
  }

  /** The model matrix maps a local point p to position + scale ⊙ p. */
  lemma ModelMapsLocalPoint(b: BoxObject, p: Vec3)
    ensures Apply(Model(b), Point(p))
         == Vec4(b.position.x + b.scale.x * p.x,
                 b.position.y + b.scale.y * p.y,
                 b.position.z + b.scale.z * p.z, 1.0)
  {
    var s, t := b.scale, b.position;
    var m := Model(b);
    assert m.c0 == Vec4(s.x, 0.0, 0.0, 0.0);
    assert m.c1 == Vec4(0.0, s.y, 0.0, 0.0);
    assert m.c2 == Vec4(0.0, 0.0, s.z, 0.0);
    assert m.c3 == Vec4(t.x, t.y, t.z, 1.0);
  }

  /** The unit cube's corners, in the order worldCorners lists them. */
  const LocalCorners: seq<Vec3> := [
    Vec3(-0.5, -0.5, -0.5), Vec3(0.5, -0.5, -0.5), Vec3(0.5, 0.5, -0.5), Vec3(-0.5, 0.5, -0.5),
    Vec3(-0.5, -0.5, 0.5), Vec3(0.5, -0.5, 0.5), Vec3(0.5, 0.5, 0.5), Vec3(-0.5, 0.5, 0.5)
  ]

  /** BoxObject::worldCorners: exactly eight points, corner i being
      position + scale ⊙ LocalCorners[i]. */
  function WorldCorners(b: BoxObject): (r: seq<Vec3>)
    ensures |r| == 8
    ensures forall i :: 0 <= i < 8 ==>
      r[i] == Vec3(b.position.x + b.scale.x * LocalCorners[i].x,
                   b.position.y + b.scale.y * LocalCorners[i].y,
                   b.position.z + b.scale.z * LocalCorners[i].z)
  {
    forall i | 0 <= i < 8 { ModelMapsLocalPoint(b, LocalCorners[i]); }
    seq(8, i requires 0 <= i < 8 =>
      var w := Apply(Model(b), Point(LocalCorners[i]));
      Vec3(w.x, w.y, w.z))
  }

  /** Every corner coordinate is the centre plus or minus half the size;
      corners 0-3 lie on the near face z = position.z - scale.z/2 and
      corners 4-7 on the far face z = position.z + scale.z/2. */
  lemma CornersOnBoxFaces(b: BoxObject)
    ensures forall i :: 0 <= i < 8 ==>
      var c := WorldCorners(b)[i];
      (c.x == b.position.x - b.scale.x / 2.0 || c.x == b.position.x + b.scale.x / 2.0) &&
      (c.y == b.position.y - b.scale.y / 2.0 || c.y == b.position.y + b.scale.y / 2.0)
    ensures forall i :: 0 <= i < 4 ==> WorldCorners(b)[i].z == b.position.z - b.scale.z / 2.0
    ensures forall i :: 4 <= i < 8 ==> WorldCorners(b)[i].z == b.position.z + b.scale.z / 2.0
  {
    var r := WorldCorners(b);
    forall i | 0 <= i < 8
      ensures (r[i].x == b.position.x - b.scale.x / 2.0 || r[i].x == b.position.x + b.scale.x / 2.0) &&
              (r[i].y == b.position.y - b.scale.y / 2.0 || r[i].y == b.position.y + b.scale.y / 2.0)
      ensures i < 4 ==> r[i].z == b.position.z - b.scale.z / 2.0
      ensures 4 <= i ==> r[i].z == b.position.z + b.scale.z / 2.0
    {
      var l := LocalCorners[i];
      assert l.x == -0.5 || l.x == 0.5;
      assert l.y == -0.5 || l.y == 0.5;
      assert i < 4 ==> l.z == -0.5;
      assert 4 <= i ==> l.z == 0.5;
    }
  }

  /** With a non-negative size, corner 0 and corner 6 are the box's
      componentwise minimum and maximum. */
  lemma CornerZeroAndSixBoundTheBox(b: BoxObject)
    requires b.scale.x >= 0.0 && b.scale.y >= 0.0 && b.scale.z >= 0.0
    ensures var r := WorldCorners(b);
      forall i :: 0 <= i < 8 ==>
        r[0].x <= r[i].x <= r[6].x && r[0].y <= r[i].y <= r[6].y && r[0].z <= r[i].z <= r[6].z
  {
    CornersOnBoxFaces(b);
    var r := WorldCorners(b);
    var lo := Vec3(b.position.x - b.scale.x / 2.0, b.position.y - b.scale.y / 2.0, b.position.z - b.scale.z / 2.0);
    var hi := Vec3(b.position.x + b.scale.x / 2.0, b.position.y + b.scale.y / 2.0, b.position.z + b.scale.z / 2.0);
    assert r[0] == lo by { assert LocalCorners[0] == Vec3(-0.5, -0.5, -0.5); }
    assert r[6] == hi by { assert LocalCorners[6] == Vec3(0.5, 0.5, 0.5); }
    forall i | 0 <= i < 8
      ensures lo.x <= r[i].x <= hi.x && lo.y <= r[i].y <= hi.y && lo.z <= r[i].z <= hi.z
    {
      assert i < 4 || 4 <= i;
    }
  }
}
