/** Model of the default methods of `IBiPredicate`: short-circuiting `and`
    and `or`, and `negate`.

    A Java predicate may throw instead of answering, so `test(t, u)` is
    modelled as a total function into `Result<bool, E>`: `Success(b)` when
    it returns `b`, `Failure(e)` when it throws `e`. "The other predicate is
    not evaluated" becomes "the composed result does not depend on the other
    predicate", and "exceptions are relayed to the caller" becomes "the
    composed result is the same `Failure`". */
module BiPredicates {
  import opened Wrappers

  type BiPredicate<-T, -U, +E> = (T, U) -> Result<bool, E>

  /** Thrown by `Objects.requireNonNull` when `other` is `null`. */
  datatype NullPointerException = NullPointerException

  function And<T, U, E>(p: BiPredicate<T, U, E>, other: Option<BiPredicate<T, U, E>>): (r: Result<BiPredicate<T, U, E>, NullPointerException>)
    ensures r.Failure? <==> other.None?
  {
    match other
    case None => Failure(NullPointerException)
    case Some(q) =>
      Success((t, u) =>
        match p(t, u)
        case Failure(e) => Failure(e)
        case Success(b) => if b then q(t, u) else Success(false))
  }

  function Or<T, U, E>(p: BiPredicate<T, U, E>, other: Option<BiPredicate<T, U, E>>): (r: Result<BiPredicate<T, U, E>, NullPointerException>)
    ensures r.Failure? <==> other.None?
  {
    match other
    case None => Failure(NullPointerException)
    case Some(q) =>
      Success((t, u) =>
        match p(t, u)
        case Failure(e) => Failure(e)
        case Success(b) => if b then Success(true) else q(t, u))
  }

  function Negate<T, U, E>(p: BiPredicate<T, U, E>): (r: BiPredicate<T, U, E>)
  {
    (t, u) =>
      match p(t, u)
      case Failure(e) => Failure(e)
      case Success(b) => Success(!b)
  }

  /** Where neither predicate throws, `p.and(q)` answers the conjunction. */
  lemma AndIsConjunction<T, U, E>(p: BiPredicate<T, U, E>, q: BiPredicate<T, U, E>, t: T, u: U)
    requires p(t, u).Success? && q(t, u).Success?
    ensures And(p, Some(q)).Success?
    ensures And(p, Some(q)).value(t, u) == Success(p(t, u).value && q(t, u).value)
  {
  }

  /** When `p` answers false, `p.and(q)` answers false whatever `q` does
      (answers or throws): `q` is not evaluated. */
  lemma AndShortCircuits<T, U, E>(p: BiPredicate<T, U, E>, q: BiPredicate<T, U, E>, t: T, u: U)
    requires p(t, u) == Success(false)
    ensures And(p, Some(q)).Success?
    ensures And(p, Some(q)).value(t, u) == Success(false)
  {
  }

  /** An exception thrown by `p` reaches the caller of `p.and(q)`
      unchanged, and `q` is not evaluated; once `p` answers true, whatever
      `q` answers or throws is the composed result. */
  lemma AndRelaysExceptions<T, U, E>(p: BiPredicate<T, U, E>, q: BiPredicate<T, U, E>, t: T, u: U)
    ensures And(p, Some(q)).Success?
    ensures p(t, u).Failure? ==> And(p, Some(q)).value(t, u) == p(t, u)
    ensures p(t, u) == Success(true) ==> And(p, Some(q)).value(t, u) == q(t, u)
  {
  }

  /** Where neither predicate throws, `p.or(q)` answers the disjunction. */
  lemma OrIsDisjunction<T, U, E>(p: BiPredicate<T, U, E>, q: BiPredicate<T, U, E>, t: T, u: U)
    requires p(t, u).Success? && q(t, u).Success?
    ensures Or(p, Some(q)).Success?
    ensures Or(p, Some(q)).value(t, u) == Success(p(t, u).value || q(t, u).value)
  {
  }

  /** When `p` answers true, `p.or(q)` answers true whatever `q` does
      (answers or throws): `q` is not evaluated. */
  lemma OrShortCircuits<T, U, E>(p: BiPredicate<T, U, E>, q: BiPredicate<T, U, E>, t: T, u: U)
    requires p(t, u) == Success(true)
    ensures Or(p, Some(q)).Success?
    ensures Or(p, Some(q)).value(t, u) == Success(true)
  {
  }

  /** An exception thrown by `p` reaches the caller of `p.or(q)` unchanged,
      and `q` is not evaluated; once `p` answers false, whatever `q` answers
      or throws is the composed result. */
  lemma OrRelaysExceptions<T, U, E>(p: BiPredicate<T, U, E>, q: BiPredicate<T, U, E>, t: T, u: U)
    ensures Or(p, Some(q)).Success?
    ensures p(t, u).Failure? ==> Or(p, Some(q)).value(t, u) == p(t, u)
    ensures p(t, u) == Success(false) ==> Or(p, Some(q)).value(t, u) == q(t, u)
  {
  }

  /** `p.negate()` answers the opposite of `p`, and throws what `p` throws. */
  lemma NegateIsComplement<T, U, E>(p: BiPredicate<T, U, E>, t: T, u: U)
    ensures Negate(p)(t, u).Success? <==> p(t, u).Success?
    ensures p(t, u).Success? ==> Negate(p)(t, u).value == !p(t, u).value
    ensures p(t, u).Failure? ==> Negate(p)(t, u) == p(t, u)
  {
  }

  /** `p.negate().negate()` behaves exactly like `p`. */
  lemma DoubleNegation<T, U, E>(p: BiPredicate<T, U, E>, t: T, u: U)
    ensures Negate(Negate(p))(t, u) == p(t, u)
  {
  }

  /** De Morgan's laws hold for the short-circuiting operators, exceptions
      included. */
  lemma NegatedAndIsOrOfNegations<T, U, E>(p: BiPredicate<T, U, E>, q: BiPredicate<T, U, E>, t: T, u: U)
    ensures Negate(And(p, Some(q)).value)(t, u) == Or(Negate(p), Some(Negate(q))).value(t, u)
  {
  }

  lemma NegatedOrIsAndOfNegations<T, U, E>(p: BiPredicate<T, U, E>, q: BiPredicate<T, U, E>, t: T, u: U)
    ensures Negate(Or(p, Some(q)).value)(t, u) == And(Negate(p), Some(Negate(q))).value(t, u)
  {
  }
}
