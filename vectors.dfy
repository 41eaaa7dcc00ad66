/**
  Three- and four-vectors as the `vector` library represents them in
  Cartesian form.  Addition, subtraction and scaling are component-wise and
  exact; everything that needs square roots or trigonometry (pt, eta, phi,
  the energy of a particle of given mass, invariant mass, the unit massless
  vector along a direction, the DIRA cosine) is supplied by a `Geometry`
  value whose functions the model leaves uninterpreted.
*/
module Vectors {
  import opened PyBase

  datatype Vec3 = Vec3(x: Value, y: Value, z: Value)

  datatype Vec4 = Vec4(px: Value, py: Value, pz: Value, e: Value) {
    function P3(): Vec3 {
      Vec3(px, py, pz)
    }
  }

  function Add(a: Vec4, b: Vec4): Vec4 {
    Vec4(Plus(a.px, b.px), Plus(a.py, b.py), Plus(a.pz, b.pz), Plus(a.e, b.e))
  }

  function Sub(a: Vec4, b: Vec4): Vec4 {
    Vec4(Minus(a.px, b.px), Minus(a.py, b.py), Minus(a.pz, b.pz), Minus(a.e, b.e))
  }

  function Scale(k: Value, v: Vec4): Vec4 {
    Vec4(Times(k, v.px), Times(k, v.py), Times(k, v.pz), Times(k, v.e))
  }

  predicate Finite(v: Vec4) {
    v.px.Num? && v.py.Num? && v.pz.Num? && v.e.Num?
  }

  /** Adding back what was subtracted restores the original vector: the raw
      brem photon `full - track` added to the track gives the full electron. */
  lemma AddSubCancel(track: Vec4, full: Vec4)
    requires Finite(track)
    ensures Add(track, Sub(full, track)) == full
  {
  }

  /** The geometric functions of the `vector` library, left uninterpreted. */
  datatype Geometry = Geometry(
    pt: Vec3 -> Value,
    eta: Vec3 -> Value,
    phi: Vec3 -> Value,
    /** energy of a particle with this momentum and this mass */
    energy: (Vec3, real) -> Value,
    /** 4-vector from (pt, eta, phi, mass), in Cartesian form */
    fromPtEtaPhiM: (Value, Value, Value, real) -> Vec4,
    /** invariant mass; NaN for degenerate kinematics */
    mass: Vec4 -> Value,
    /** the massless 4-vector with pt = 1 along (eta, phi) */
    unitPhoton: (Value, Value) -> Vec4,
    /** cosine of the angle between (end vertex - primary vertex) and the momentum */
    dira: (Vec3, Vec3, Vec3) -> Value)

  /** `v3d(px, py, pz)` turned into `v4d(pt, eta, phi, mass)` and back to Cartesian
      form: the momentum is kept and the energy follows from the mass. */
  function FromMomentum(geo: Geometry, p: Vec3, mass: real): (v: Vec4)
    ensures v.P3() == p
    ensures v.e == geo.energy(p, mass)
  {
    Vec4(p.x, p.y, p.z, geo.energy(p, mass))
  }
}
