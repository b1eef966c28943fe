/** The external collaborators of the solver: the IAPWS-IF97 steam tables, the natural
    logarithm and the non-finite outcomes of IEEE division. None of them is implemented
    here; the solver receives them as an environment of total functions, so that every
    relation proved about the solver holds whatever those functions return. */
module Steam {

  /** Which property a steam-table query returns (the OT/OH/OS/OX/OP/OD selectors). */
  datatype Prop = OT | OH | OS | OX | OP | OD

  /** The lookups the solver calls. `px(p, x, o)`: from pressure and quality;
      `ph(p, h, o)`: from pressure and enthalpy; `ps(p, s, o)`: from pressure and
      entropy; `pt(p, t, o)`: from pressure and temperature; `tx(t, x, o)`: from
      temperature and quality. `ln` is the natural logarithm. `nonFinite(a)` is the real
      that stands for `a / 0.0` (an infinity or NaN in IEEE arithmetic), and `unset` the
      value of a record field the solver never assigns. */
  datatype Env = Env(
    px: (real, real, Prop) -> real,
    ph: (real, real, Prop) -> real,
    ps: (real, real, Prop) -> real,
    pt: (real, real, Prop) -> real,
    tx: (real, real, Prop) -> real,
    ln: real -> real,
    nonFinite: real -> real,
    unset: real)

  /** Floating-point division: the exact quotient when the divisor is nonzero. */
  function Div(env: Env, a: real, b: real): (q: real)
    ensures b != 0.0 ==> q * b == a
    ensures b == 0.0 ==> q == env.nonFinite(a)
  {
    if b != 0.0 then a / b else env.nonFinite(a)
  }

  function Abs(x: real): (r: real)
    ensures r >= 0.0 && (r == x || r == -x)
  {
    if x < 0.0 then -x else x
  }

  /** The solver's relative convergence test `(next - prev).abs() / prev < tol`. When `prev`
      is zero the IEEE quotient is an infinity or NaN and the comparison is false. */
  predicate Converged(next: real, prev: real, tol: real)
  {
    prev != 0.0 && Abs(next - prev) / prev < tol
  }

  lemma ConvergedAtFixedPoint(x: real, tol: real)
    requires x != 0.0 && tol > 0.0
    ensures Converged(x, x, tol)
  {
  }

  lemma ConvergedBound(next: real, prev: real, tol: real)
    requires prev > 0.0
    ensures Converged(next, prev, tol) <==> Abs(next - prev) < tol * prev
  {
    if Converged(next, prev, tol) {
      assert Abs(next - prev) == (Abs(next - prev) / prev) * prev;
    }
    if Abs(next - prev) < tol * prev {
      assert Abs(next - prev) / prev < (tol * prev) / prev;
    }
  }
}
