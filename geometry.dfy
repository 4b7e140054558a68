/** Plane vectors, colours and the quad batch that actions draw into. */
module Geometry {

  /** An RGB colour (the source's vec3). */
  datatype Rgb = Rgb(r: real, g: real, b: real)

  /** An RGB colour with an alpha channel (the source's vec4). */
  datatype Rgba = Rgba(r: real, g: real, b: real, a: real)

  /** A point or direction in the plane (the source's vec2). */
  datatype Vec2 = Vec2(x: real, y: real)

  function Plus(u: Vec2, v: Vec2): Vec2 { Vec2(u.x + v.x, u.y + v.y) }

  function Minus(u: Vec2, v: Vec2): Vec2 { Vec2(u.x - v.x, u.y - v.y) }

  function Times(u: Vec2, k: real): Vec2 { Vec2(u.x * k, u.y * k) }

  function Dot(u: Vec2, v: Vec2): real { u.x * v.x + u.y * v.y }

  function Midpoint(u: Vec2, v: Vec2): Vec2 { Vec2((u.x + v.x) / 2.0, (u.y + v.y) / 2.0) }

  /** The direction turned a quarter turn anticlockwise. */
  function Perp(n: Vec2): Vec2 { Vec2(-n.y, n.x) }

  /** The turned direction is at right angles to n and as long as n. */
  lemma PerpGeometry(n: Vec2)
    ensures Dot(Perp(n), n) == 0.0
    ensures Dot(Perp(n), Perp(n)) == Dot(n, n)
  {
  }

  /** The colour with the given alpha channel. */
  function WithAlpha(c: Rgb, alpha: real): (q: Rgba)
    ensures q.a == alpha && Rgb(q.r, q.g, q.b) == c
  {
    Rgba(c.r, c.g, c.b, alpha)
  }

  /** One vertex of a quad: position, colour and texture coordinate. */
  datatype Vertex = Vertex(pos: Vec2, colour: Rgba, texcoord: Vec2)

  /** Four vertices drawn with one texture. */
  datatype Quad = Quad(texture: int, v1: Vertex, v2: Vertex, v3: Vertex, v4: Vertex)

  /**
   * The caller-owned batch of quads (the source's quadbuf). Its storage and
   * GPU upload are not part of this model: it is the sequence of quads added.
   */
  class QuadBuffer {
    var quads: seq<Quad>

    constructor ()
      ensures quads == []
    {
      quads := [];
    }

    method Add(texture: int, v1: Vertex, v2: Vertex, v3: Vertex, v4: Vertex)
      modifies this
      ensures quads == old(quads) + [Quad(texture, v1, v2, v3, v4)]
    {
      quads := quads + [Quad(texture, v1, v2, v3, v4)];
    }
  }
}
