/**
 * The status algebra of `include/contracts_lite/operators.hpp`: `&&` and `||`
 * combine the outcomes and join the comments, skipping empty comments.
 */
module Operators {
  import opened Status

  const AndConjunction: string := "; AND "
  const OrConjunction: string := "; OR "

  /** Joins two comments with `conjunction`, unless one of them is empty. */
  function JoinComments(conjunction: string, c1: string, c2: string): (r: string)
    ensures |r| == |c1| + |c2| + (if c1 != [] && c2 != [] then |conjunction| else 0)
    ensures c1 == [] ==> r == c2
    ensures c2 == [] ==> r == c1
    ensures c1 != [] && c2 != [] ==> r == c1 + conjunction + c2
  {
    if c1 == [] then c2
    else if c2 == [] then c1
    else c1 + conjunction + c2
  }

  /** `rs1 && rs2` */
  function And(rs1: ReturnStatus, rs2: ReturnStatus): (r: ReturnStatus)
    ensures r.status <==> rs1.status && rs2.status
    ensures r.comment == JoinComments(AndConjunction, rs1.comment, rs2.comment)
  {
    ReturnStatus(JoinComments(AndConjunction, rs1.comment, rs2.comment), rs1.status && rs2.status)
  }

  /** `rs1 || rs2` */
  function Or(rs1: ReturnStatus, rs2: ReturnStatus): (r: ReturnStatus)
    ensures r.status <==> rs1.status || rs2.status
    ensures r.comment == JoinComments(OrConjunction, rs1.comment, rs2.comment)
  {
    ReturnStatus(JoinComments(OrConjunction, rs1.comment, rs2.comment), rs1.status || rs2.status)
  }

  /**
   * The empty comment is a two-sided identity of joining, the join is empty
   * only when both sides are, and two non-empty comments keep the conjunction
   * between them.
   */
  lemma JoinIdentity(conjunction: string, c: string, c1: string, c2: string)
    ensures JoinComments(conjunction, [], c) == c
    ensures JoinComments(conjunction, c, []) == c
    ensures JoinComments(conjunction, c1, c2) == [] <==> c1 == [] && c2 == []
    ensures c1 != [] && c2 != [] ==> JoinComments(conjunction, c1, c2) == c1 + conjunction + c2
  {
  }

  /** Joining is associative, so a chain of checks reads the same however it is grouped. */
  lemma JoinAssociative(conjunction: string, a: string, b: string, c: string)
    ensures JoinComments(conjunction, JoinComments(conjunction, a, b), c)
         == JoinComments(conjunction, a, JoinComments(conjunction, b, c))
  {
    if a != [] && b != [] && c != [] {
      assert a + conjunction + b + conjunction + c == a + conjunction + (b + conjunction + c);
    }
  }

  /**
   * `&&` and `||` form monoids: they are associative, `{"", true}` is the unit
   * of `&&` and `{"", false}` is the unit of `||`.
   */
  lemma StatusMonoids(a: ReturnStatus, b: ReturnStatus, c: ReturnStatus)
    ensures And(And(a, b), c) == And(a, And(b, c))
    ensures Or(Or(a, b), c) == Or(a, Or(b, c))
    ensures And(ReturnStatus([], true), a) == a && And(a, ReturnStatus([], true)) == a
    ensures Or(ReturnStatus([], false), a) == a && Or(a, ReturnStatus([], false)) == a
  {
    JoinAssociative(AndConjunction, a.comment, b.comment, c.comment);
    JoinAssociative(OrConjunction, a.comment, b.comment, c.comment);
  }
}
