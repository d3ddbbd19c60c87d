# Triangle predicates of TriCongruenceTest

A Dafny model of the three boolean predicates defined in the Spring PetClinic
test class `TriCongruenceTest`, and of the literal test vectors its test
methods check them against:

- `FirstPredicate` compares two triangles side by side and is true when some
  corresponding side differs (the negation of positional congruence). Both
  triangles must have strictly ascending sides.
- `SecondPredicate` is the degenerate-or-invalid check on one ascending
  triangle: a strict triangle-inequality violation (clause e, `a + b < c`) or
  a negative leading side (clause d, `a < 0`).
- `questionTwo` is the predicate `ab + cd`; its fifth argument is unused.

Side lengths are mathematical reals (`real`). The Java `assert` statements
that guard the predicates become `requires` clauses. The clauses a–e of the
class's clause definitions are modelled as valuation datatypes
(`FirstValuation`, `SecondValuation`), so that the coverage comments' claim
about which clause combinations can be reached is a lemma: every valuation of
clauses a, b, c can be reached, while "d true, e false" cannot, because an
ascending triple with a negative leading side always violates the triangle
inequality. This is the test marked "Infeasible". As a consequence,
`SecondPredicate` equals its triangle-inequality clause alone under the
precondition.

All the code is in `tri_congruence.dfy`, module `TriCongruenceTest`.

## Model

| member | source | states |
|---|---|---|
| TriCongruenceTest.FirstPredicate | src/test/java/org/springframework/samples/petclinic/utility/TriCongruenceTest.java:47-51 | for two ascending triangles, true exactly when the triangles are not congruent position by position; FirstPredicateIsSideSideSide shows this is exactly "not congruent by three equal sides" |
| TriCongruenceTest.FirstPredicateIsSideSideSide | src/test/java/org/springframework/samples/petclinic/utility/TriCongruenceTest.java:47-51 | for all ascending triangles, the result is false exactly when the two triangles have the same multiset of side lengths (congruence by three equal sides); the ordering asserts are what make the positional comparison agree with it |
| TriCongruenceTest.SampleTestPair | src/test/java/org/springframework/samples/petclinic/utility/TriCongruenceTest.java:38-45 | (2,3,7) and (7,2,3) have the same side lengths; unsorted, (7,2,3) is not ascending and every positional clause a, b, c tells the pair apart; sorted, the pair agrees side by side, and (2,3,7) fails the triangle inequality |
| TriCongruenceTest.FirstClauses | src/test/java/org/springframework/samples/petclinic/utility/TriCongruenceTest.java:14-16 | on ascending triangles the predicate is the disjunction a + b + c of the clauses `t1A != t2A`, `t1B != t2B`, `t1C != t2C`; all clauses are false exactly when the triples are equal |
| TriCongruenceTest.SecondPredicate | src/test/java/org/springframework/samples/petclinic/utility/TriCongruenceTest.java:158-161 | for an ascending triple, true exactly when the sides cannot form a (possibly flat) triangle in the order-free sense (some side negative or longer than the other two together), and equivalently exactly when `a + b < c`: the negative-side clause never decides the result |
| TriCongruenceTest.SecondClauses | src/test/java/org/springframework/samples/petclinic/utility/TriCongruenceTest.java:17-18 | on an ascending triple the predicate is the disjunction d + e of the clauses `t1A < 0` and `t1A + t1B < t1C`, and clause d never holds without clause e |
| TriCongruenceTest.QuestionTwo | src/test/java/org/springframework/samples/petclinic/utility/TriCongruenceTest.java:248-252 | false exactly when one implicant of the negation `~a~c + ~a~d + ~b~c + ~b~d` holds (the complement given in the comment at line 243) |
| TriCongruenceTest.QuestionTwoIgnoresE | src/test/java/org/springframework/samples/petclinic/utility/TriCongruenceTest.java:248-251 | the result does not depend on the fifth argument |
| TriCongruenceTest.QuestionTwoTestPoints | src/test/java/org/springframework/samples/petclinic/utility/TriCongruenceTest.java:234-240 | the five points TTFT, FTTT, FTFT, TFFT, FTTF chosen for `ab + cd` give true, true, false, false, false |
| TriCongruenceTest.FirstValuationReachable | src/test/java/org/springframework/samples/petclinic/utility/TriCongruenceTest.java:25-34 | every valuation of clauses a, b, c is reached by some pair of ascending triangles, so each unique true point and the near false point can be tested |
| TriCongruenceTest.SecondValuationReachable | src/test/java/org/springframework/samples/petclinic/utility/TriCongruenceTest.java:146-187 | a valuation of clauses d, e is reached by some ascending triple if and only if it is not "d true, e false" |
| TriCongruenceTest.SixthTestInfeasible | src/test/java/org/springframework/samples/petclinic/utility/TriCongruenceTest.java:185-187 | an ascending triple with a negative leading side always has `a + b < c` |
| TriCongruenceTest.FirstPredicateSymmetric | src/test/java/org/springframework/samples/petclinic/utility/TriCongruenceTest.java:47-51 | swapping the two triangles does not change the result |
| TriCongruenceTest.FirstPredicateOneSideDiffers | src/test/java/org/springframework/samples/petclinic/utility/TriCongruenceTest.java:53-100 | a difference in exactly one corresponding side makes the result true |
| TriCongruenceTest.NegativeLeadingSideInvalid | src/test/java/org/springframework/samples/petclinic/utility/TriCongruenceTest.java:158-161 | a negative leading side alone makes the result true |
| TriCongruenceTest.FlatTriangleValid | src/test/java/org/springframework/samples/petclinic/utility/TriCongruenceTest.java:160 | with a non-negative leading side and `a + b == c` the result is false: the inequality is strict |
| TriCongruenceTest.FirstTest | src/test/java/org/springframework/samples/petclinic/utility/TriCongruenceTest.java:53-67 | (1,2,3,3,4,4) has valuation TFF and gives true |
| TriCongruenceTest.SecondTest | src/test/java/org/springframework/samples/petclinic/utility/TriCongruenceTest.java:69-83 | (1,1,2,2,3,4) has valuation FFT and gives true |
| TriCongruenceTest.ThirdTest | src/test/java/org/springframework/samples/petclinic/utility/TriCongruenceTest.java:86-100 | (1,1,2,3,4,4) has valuation FTF and gives true |
| TriCongruenceTest.FourthTest | src/test/java/org/springframework/samples/petclinic/utility/TriCongruenceTest.java:102-142 | (1,1,2,2,3,3) has valuation FFF and gives false |
| TriCongruenceTest.FifthTest | src/test/java/org/springframework/samples/petclinic/utility/TriCongruenceTest.java:163-173 | (-1,2,4) makes both clauses d and e true and gives true |
| TriCongruenceTest.SeventhTest | src/test/java/org/springframework/samples/petclinic/utility/TriCongruenceTest.java:189-201 | (1,2,4) makes only clause e true and gives true |
| TriCongruenceTest.EighthTest | src/test/java/org/springframework/samples/petclinic/utility/TriCongruenceTest.java:203-232 | (3,4,5) makes both clauses false and gives false |

## Left out

- `sampleTest` (lines 38-45): it calls a `Triangle` class and `TriCongruence.areCongruent`; those files are not part of this model. Only its pair of side triples is used, in `SampleTestPair`; the model cannot tell whether the expected result comes from comparing sides by position or from rejecting (2,3,7), which is not a triangle.
- JUnit wiring, the reporting extension, SLF4J logging and the coverage annotations (`@ClauseDefinition`, `@UniqueTruePoint`, `@NearFalsePoint`, `@ClauseCoverage`, `@CACC`): test-runner metadata with no behaviour. Only the clause definitions and the valuations they name are used, as the valuation datatypes and the test lemmas.
- IEEE-754 `double` behaviour (rounding of `t1A + t1B`, NaN, infinities): sides are exact reals; every test vector is a small integer.
- Run-time checking of the Java `assert` statements: they are disabled by default in the JVM, so they are preconditions here, not error paths.
- The subsumption argument of the comment at line 246 (that the five chosen points cannot give unique true point coverage of all six implicants of `ab + cd` and its negation) is not modelled; only the values at the five points are.
