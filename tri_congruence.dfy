/**
  The boolean predicates of the triangle test class: a side-by-side
  congruence check on two triangles (FirstPredicate), a degenerate-or-invalid
  check on one triangle (SecondPredicate), and the logic exercise questionTwo.
  Side lengths are mathematical reals; the ordering assertions the class makes
  on entry become preconditions.
*/
module TriCongruenceTest {

  /** Three side lengths, in the order the caller supplies them. */
  datatype Triangle = Triangle(a: real, b: real, c: real)

  /** The ordering both predicates ask of their callers: A < B < C. */
  predicate Ascending(t: Triangle) {
    t.a < t.b && t.b < t.c
  }

  /**
    Congruence by corresponding sides: the two triples are the same value,
    position by position. Nothing is sorted or re-ordered first.
  */
  predicate Congruent(t1: Triangle, t2: Triangle) {
    t1 == t2
  }

  /**
    A triple that can be the sides of a triangle, whatever its order: no
    negative side, and no side longer than the other two together. A flat
    triangle (one side equal to the sum of the others) is accepted.
  */
  predicate FormsTriangle(t: Triangle) {
    && 0.0 <= t.a && 0.0 <= t.b && 0.0 <= t.c
    && t.a <= t.b + t.c && t.b <= t.a + t.c && t.c <= t.a + t.b
  }

  /** The three side lengths as a multiset: what congruence by three equal sides compares. */
  function Sides(t: Triangle): (s: multiset<real>) {
    multiset{t.a, t.b, t.c}
  }

  // ---------------------------------------------------------------------
  // The three predicates
  // ---------------------------------------------------------------------

  /**
    Clauses a, b, c: some corresponding side differs. The arguments come
    interleaved, side A of both triangles first, then B, then C.
  */
  function FirstPredicate(t1A: real, t2A: real, t1B: real, t2B: real, t1C: real, t2C: real): (r: bool)
    requires t1A < t1B && t1B < t1C
    requires t2A < t2B && t2B < t2C
    ensures r <==> !Congruent(Triangle(t1A, t1B, t1C), Triangle(t2A, t2B, t2C))
  {
    t1A != t2A || t1B != t2B || t1C != t2C
  }

  /**
    Clauses e (strict triangle-inequality violation) and d (negative leading
    side). Under the ordering precondition clause d never decides the outcome:
    the result is the triangle-inequality clause alone.
  */
  function SecondPredicate(t1A: real, t1B: real, t1C: real): (r: bool)
    requires t1A < t1B && t1B < t1C
    ensures r <==> !FormsTriangle(Triangle(t1A, t1B, t1C))
    ensures r <==> t1A + t1B < t1C
  {
    t1A + t1B < t1C || t1A < 0.0
  }

  /**
    The predicate ab + cd. Its fifth argument is never read. The result is
    false exactly when one of the four implicants of its negation holds:
    ~a~c + ~a~d + ~b~c + ~b~d.
  */
  function QuestionTwo(a: bool, b: bool, c: bool, d: bool, e: bool): (r: bool)
    ensures !r <==> (!a && !c) || (!a && !d) || (!b && !c) || (!b && !d)
  {
    (a && b) || (c && d)
  }

  // ---------------------------------------------------------------------
  // Clause valuations and which of them an admissible input can reach
  // ---------------------------------------------------------------------

  /** Truth values of clauses a, b, c of FirstPredicate. */
  datatype FirstValuation = FirstValuation(a: bool, b: bool, c: bool)

  /**
    The clauses of FirstPredicate for two triangles. On ascending triangles
    the predicate is their disjunction a + b + c, and they are all false
    exactly when the triangles are the same triple.
  */
  function FirstClauses(t1: Triangle, t2: Triangle): (v: FirstValuation)
    ensures Ascending(t1) && Ascending(t2) ==>
      (FirstPredicate(t1.a, t2.a, t1.b, t2.b, t1.c, t2.c) <==> v.a || v.b || v.c)
    ensures v == FirstValuation(false, false, false) <==> t1 == t2
  {
    FirstValuation(t1.a != t2.a, t1.b != t2.b, t1.c != t2.c)
  }

  /** t1 and t2 meet FirstPredicate's precondition and give the clauses the values v. */
  predicate ReachesFirst(t1: Triangle, t2: Triangle, v: FirstValuation) {
    Ascending(t1) && Ascending(t2) && FirstClauses(t1, t2) == v
  }

  /** Truth values of clauses d and e of SecondPredicate. */
  datatype SecondValuation = SecondValuation(d: bool, e: bool)

  /**
    The clauses of SecondPredicate for one triangle. On an ascending triple
    the predicate is their disjunction d + e, and clause d never holds
    without clause e.
  */
  function SecondClauses(t: Triangle): (v: SecondValuation)
    ensures Ascending(t) ==> (SecondPredicate(t.a, t.b, t.c) <==> v.d || v.e)
    ensures Ascending(t) && v.d ==> v.e
  {
    SecondValuation(t.a < 0.0, t.a + t.b < t.c)
  }

  /** t meets SecondPredicate's precondition and gives the clauses the values v. */
  predicate ReachesSecond(t: Triangle, v: SecondValuation) {
    Ascending(t) && SecondClauses(t) == v
  }

  /**
    Every one of the eight valuations of clauses a, b, c can be reached by
    two ascending triangles, so each clause can be made the only true one
    (the unique true points) and all can be made false (the near false point).
  */
  lemma FirstValuationReachable(v: FirstValuation)
    ensures exists t1, t2 :: ReachesFirst(t1, t2, v)
  {
    var t1 := Triangle(1.0, 2.0, 3.0);
    var t2 := Triangle(if v.a then 0.0 else 1.0, if v.b then 2.5 else 2.0, if v.c then 4.0 else 3.0);
    assert ReachesFirst(t1, t2, v);
  }

  /**
    Of the four valuations of clauses d and e, exactly "d true, e false" is
    unreachable under the ordering precondition: the pair of tests that would
    show clause d deciding the outcome on its own cannot be written. The
    other three are reached by the class's own vectors (-1, 2, 4), (1, 2, 4)
    and (3, 4, 5).
  */
  lemma SecondValuationReachable(v: SecondValuation)
    ensures (exists t :: ReachesSecond(t, v)) <==> !(v.d && !v.e)
  {
    if v.d && !v.e {
      forall t | Ascending(t)
        ensures SecondClauses(t) != v
      {
        if t.a < 0.0 {
          SixthTestInfeasible(t.a, t.b, t.c);
        }
      }
    } else if v.d {
      assert ReachesSecond(Triangle(-1.0, 2.0, 4.0), v);
    } else if v.e {
      assert ReachesSecond(Triangle(1.0, 2.0, 4.0), v);
    } else {
      assert ReachesSecond(Triangle(3.0, 4.0, 5.0), v);
    }
  }

  // ---------------------------------------------------------------------
  // Properties of FirstPredicate
  // ---------------------------------------------------------------------

  /** Swapping the roles of the two triangles does not change the result. */
  lemma FirstPredicateSymmetric(t1A: real, t2A: real, t1B: real, t2B: real, t1C: real, t2C: real)
    requires t1A < t1B && t1B < t1C
    requires t2A < t2B && t2B < t2C
    ensures FirstPredicate(t1A, t2A, t1B, t2B, t1C, t2C) == FirstPredicate(t2A, t1A, t2B, t1B, t2C, t1C)
  {
  }

  /** A difference in any one corresponding side alone makes the predicate true. */
  lemma FirstPredicateOneSideDiffers(t1: Triangle, t2: Triangle)
    requires Ascending(t1) && Ascending(t2)
    requires FirstClauses(t1, t2) in {FirstValuation(true, false, false), FirstValuation(false, true, false), FirstValuation(false, false, true)}
    ensures FirstPredicate(t1.a, t2.a, t1.b, t2.b, t1.c, t2.c)
  {
  }

  /**
    On ascending triangles the positional comparison is congruence by three
    equal sides: the predicate is false exactly when the two triangles have
    the same side lengths, in whatever order they are listed.
  */
  lemma FirstPredicateIsSideSideSide(t1: Triangle, t2: Triangle)
    requires Ascending(t1) && Ascending(t2)
    ensures !FirstPredicate(t1.a, t2.a, t1.b, t2.b, t1.c, t2.c) <==> Sides(t1) == Sides(t2)
  {
  }

  /**
    The pair of sampleTest, (2, 3, 7) and (7, 2, 3): the same side lengths
    at different positions. Unsorted, the second lies outside FirstPredicate's
    precondition and every positional clause tells the two apart. Sorted,
    they agree side by side; but (2, 3, 7) is not a triangle at all, so the
    pair's expected "not congruent" is explained either by the positional
    comparison or by rejecting an invalid triangle.
  */
  lemma SampleTestPair()
    ensures Sides(Triangle(2.0, 3.0, 7.0)) == Sides(Triangle(7.0, 2.0, 3.0))
    ensures !Ascending(Triangle(7.0, 2.0, 3.0))
    ensures FirstClauses(Triangle(2.0, 3.0, 7.0), Triangle(7.0, 2.0, 3.0)) == FirstValuation(true, true, true)
    ensures !FirstPredicate(2.0, 2.0, 3.0, 3.0, 7.0, 7.0)
    ensures SecondPredicate(2.0, 3.0, 7.0)
  {
  }

  /** FirstTest: (1, 3, 4) against (2, 3, 4); only side A differs. */
  lemma FirstTest()
    ensures FirstClauses(Triangle(1.0, 3.0, 4.0), Triangle(2.0, 3.0, 4.0)) == FirstValuation(true, false, false)
    ensures FirstPredicate(1.0, 2.0, 3.0, 3.0, 4.0, 4.0)
  {
  }

  /** SecondTest: (1, 2, 3) against (1, 2, 4); only side C differs. */
  lemma SecondTest()
    ensures FirstClauses(Triangle(1.0, 2.0, 3.0), Triangle(1.0, 2.0, 4.0)) == FirstValuation(false, false, true)
    ensures FirstPredicate(1.0, 1.0, 2.0, 2.0, 3.0, 4.0)
  {
  }

  /** ThirdTest: (1, 2, 4) against (1, 3, 4); only side B differs. */
  lemma ThirdTest()
    ensures FirstClauses(Triangle(1.0, 2.0, 4.0), Triangle(1.0, 3.0, 4.0)) == FirstValuation(false, true, false)
    ensures FirstPredicate(1.0, 1.0, 2.0, 3.0, 4.0, 4.0)
  {
  }

  /** FourthTest: (1, 2, 3) against itself; no side differs. */
  lemma FourthTest()
    ensures FirstClauses(Triangle(1.0, 2.0, 3.0), Triangle(1.0, 2.0, 3.0)) == FirstValuation(false, false, false)
    ensures !FirstPredicate(1.0, 1.0, 2.0, 2.0, 3.0, 3.0)
  {
  }

  // ---------------------------------------------------------------------
  // Properties of SecondPredicate
  // ---------------------------------------------------------------------

  /** A negative leading side alone makes the predicate true. */
  lemma NegativeLeadingSideInvalid(t1A: real, t1B: real, t1C: real)
    requires t1A < t1B && t1B < t1C
    requires t1A < 0.0
    ensures SecondPredicate(t1A, t1B, t1C)
  {
  }

  /**
    The triangle-inequality clause is strict: a flat triangle with a
    non-negative leading side is reported as valid.
  */
  lemma FlatTriangleValid(t1A: real, t1B: real, t1C: real)
    requires t1A < t1B && t1B < t1C
    requires 0.0 <= t1A && t1A + t1B == t1C
    ensures !SecondPredicate(t1A, t1B, t1C)
  {
  }

  /** SixthTest: with the sides ascending, a negative leading side forces a + b < c. */
  lemma SixthTestInfeasible(t1A: real, t1B: real, t1C: real)
    requires t1A < t1B && t1B < t1C
    requires t1A < 0.0
    ensures t1A + t1B < t1C
  {
  }

  /** FifthTest: (-1, 2, 4) makes both clauses true. */
  lemma FifthTest()
    ensures SecondClauses(Triangle(-1.0, 2.0, 4.0)) == SecondValuation(true, true)
    ensures SecondPredicate(-1.0, 2.0, 4.0)
  {
  }

  /** SeventhTest: (1, 2, 4) is true through clause e alone. */
  lemma SeventhTest()
    ensures SecondClauses(Triangle(1.0, 2.0, 4.0)) == SecondValuation(false, true)
    ensures SecondPredicate(1.0, 2.0, 4.0)
  {
  }

  /** EighthTest: (3, 4, 5) is a proper triangle; both clauses are false. */
  lemma EighthTest()
    ensures SecondClauses(Triangle(3.0, 4.0, 5.0)) == SecondValuation(false, false)
    ensures !SecondPredicate(3.0, 4.0, 5.0)
  {
  }

  // ---------------------------------------------------------------------
  // Properties of QuestionTwo
  // ---------------------------------------------------------------------

  /** The result does not depend on the fifth argument. */
  lemma QuestionTwoIgnoresE(a: bool, b: bool, c: bool, d: bool, e1: bool, e2: bool)
    ensures QuestionTwo(a, b, c, d, e1) == QuestionTwo(a, b, c, d, e2)
  {
  }

  /**
    The five points chosen for ab + cd, in the order a, b, c, d: TTFT and
    FTTT are true (a unique true point of ab and of cd), FTFT, TFFT and FTTF
    are false (near false points of a and c, of b, and of d).
  */
  lemma QuestionTwoTestPoints(e: bool)
    ensures QuestionTwo(true, true, false, true, e)
    ensures QuestionTwo(false, true, true, true, e)
    ensures !QuestionTwo(false, true, false, true, e)
    ensures !QuestionTwo(true, false, false, true, e)
    ensures !QuestionTwo(false, true, true, false, e)
  {
  }
}
